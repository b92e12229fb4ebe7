/** Properties of the move action that relate several steps or a whole goal:
    what the callbacks of one `planAndExecute` run add to the traces, and
    what one call of `ExecuteMoveCallback` does on each path. */
module MoveActionProperties {
  import opened MoveItMsgs
  import opened Collaborators
  import opened MoveAction

  // ---- one `planAndExecute` run ------------------------------------------

  /** What a single callback adds to the counted calls. */
  lemma HandleEventCallCounts(m: Machine, env: Env, cb: PlanCallback, plan: ExecutablePlan, e: ExecEvent)
    ensures var h := HandleEvent(m, env, cb, plan, e);
            && multiset(h.0.calls)[GeneratePlan(cb.request)] == multiset(m.calls)[GeneratePlan(cb.request)]
                 + (if KindOf(e) == PlanKind && env.pipelineFound(cb.request.pipelineId) then 1 else 0)
            && multiset(h.0.calls)[Stop] == multiset(m.calls)[Stop] + (if KindOf(e) == CancelKind then 1 else 0)
  {
    var h := HandleEvent(m, env, cb, plan, e);
    match e
    case PlanRequested(o) =>
      PlanRequestCalls(m, env, cb, plan, o);
      var added := NewCalls(m, h.0);
      assert h.0.calls == m.calls + added;
      assert multiset(h.0.calls) == multiset(m.calls) + multiset(added);
    case LookRequested =>
      assert h.0.calls == m.calls;
    case ExecutionStarting =>
      assert h.0.calls == m.calls;
    case CancelRequested =>
      assert h.0.calls == m.calls + [Stop];
  }

  /** The calls one plan request adds: the lookup, then the plan's scene
      copy and the planner when the lookup succeeds. */
  lemma PlanRequestCalls(m: Machine, env: Env, cb: PlanCallback, plan: ExecutablePlan, o: PlanOutcome)
    ensures var h := HandleEvent(m, env, cb, plan, PlanRequested(o));
            && m.calls <= h.0.calls
            && multiset(NewCalls(m, h.0))[Stop] == 0
            && multiset(NewCalls(m, h.0))[GeneratePlan(cb.request)]
               == if env.pipelineFound(cb.request.pipelineId) then 1 else 0
  {
    var h := HandleEvent(m, env, cb, plan, PlanRequested(o));
    var r := PlanUsingPlanningPipeline(m, env, cb.request, plan, o);
    if env.pipelineFound(cb.request.pipelineId) {
      assert NewCalls(m, h.0) == [ResolvePipeline(cb.request.pipelineId), CopyPlanScene, GeneratePlan(cb.request)];
    } else {
      assert NewCalls(m, h.0) == [ResolvePipeline(cb.request.pipelineId)];
    }
  }

  /** What a single callback adds to the counted feedback. */
  lemma HandleEventFeedbackCounts(m: Machine, env: Env, cb: PlanCallback, plan: ExecutablePlan, e: ExecEvent)
    ensures var h := HandleEvent(m, env, cb, plan, e);
            && multiset(h.0.feedback)[LOOK] == multiset(m.feedback)[LOOK]
                 + (if KindOf(e) == LookKind && cb.sensing.Some? then 1 else 0)
            && multiset(h.0.feedback)[MONITOR] == multiset(m.feedback)[MONITOR] + (if KindOf(e) == ExecuteKind then 1 else 0)
            && multiset(h.0.feedback)[PLANNING] == multiset(m.feedback)[PLANNING] + (if KindOf(e) == PlanKind then 1 else 0)
  {
    var h := HandleEvent(m, env, cb, plan, e);
    match e
    case PlanRequested(o) =>
      assert h.0.feedback == m.feedback + [PLANNING];
    case LookRequested =>
      assert h.0.feedback == if cb.sensing.Some? then m.feedback + [LOOK] else m.feedback;
    case ExecutionStarting =>
      assert h.0.feedback == m.feedback + [MONITOR];
    case CancelRequested =>
      assert h.0.feedback == m.feedback;
  }

  /** Each plan request runs the base planner once when the forwarded
      request's pipeline resolves, and never otherwise. */
  lemma {:induction false} RunCallbacksPlannerCalls(m: Machine, env: Env, cb: PlanCallback, plan: ExecutablePlan, events: seq<ExecEvent>)
    ensures multiset(RunCallbacks(m, env, cb, plan, events).0.calls)[GeneratePlan(cb.request)]
         == multiset(m.calls)[GeneratePlan(cb.request)]
            + (if env.pipelineFound(cb.request.pipelineId) then CountKind(events, PlanKind) else 0)
    decreases |events|
  {
    if |events| > 0 {
      var h := HandleEvent(m, env, cb, plan, events[0]);
      HandleEventCallCounts(m, env, cb, plan, events[0]);
      RunCallbacksPlannerCalls(h.0, env, cb, h.1, events[1..]);
    }
  }

  /** Every cancel request delivered during the run stops execution exactly
      once, and nothing else stops it. */
  lemma {:induction false} RunCallbacksStops(m: Machine, env: Env, cb: PlanCallback, plan: ExecutablePlan, events: seq<ExecEvent>)
    ensures multiset(RunCallbacks(m, env, cb, plan, events).0.calls)[Stop]
         == multiset(m.calls)[Stop] + CountKind(events, CancelKind)
    ensures CountKind(events, CancelKind) > 0 ==> RunCallbacks(m, env, cb, plan, events).0.preemptRequested
    decreases |events|
  {
    if |events| > 0 {
      var h := HandleEvent(m, env, cb, plan, events[0]);
      HandleEventCallCounts(m, env, cb, plan, events[0]);
      RunCallbacksStops(h.0, env, cb, h.1, events[1..]);
    }
  }

  /** LOOK is published once per look step of the sensing loop, and only
      when the sensing loop wraps the planner. */
  lemma {:induction false} RunCallbacksLooks(m: Machine, env: Env, cb: PlanCallback, plan: ExecutablePlan, events: seq<ExecEvent>)
    ensures multiset(RunCallbacks(m, env, cb, plan, events).0.feedback)[LOOK]
         == multiset(m.feedback)[LOOK] + (if cb.sensing.Some? then CountKind(events, LookKind) else 0)
    decreases |events|
  {
    if |events| > 0 {
      var h := HandleEvent(m, env, cb, plan, events[0]);
      HandleEventFeedbackCounts(m, env, cb, plan, events[0]);
      RunCallbacksLooks(h.0, env, cb, h.1, events[1..]);
    }
  }

  /** MONITOR is published once each time execution starts. */
  lemma {:induction false} RunCallbacksMonitors(m: Machine, env: Env, cb: PlanCallback, plan: ExecutablePlan, events: seq<ExecEvent>)
    ensures multiset(RunCallbacks(m, env, cb, plan, events).0.feedback)[MONITOR]
         == multiset(m.feedback)[MONITOR] + CountKind(events, ExecuteKind)
    decreases |events|
  {
    if |events| > 0 {
      var h := HandleEvent(m, env, cb, plan, events[0]);
      HandleEventFeedbackCounts(m, env, cb, plan, events[0]);
      RunCallbacksMonitors(h.0, env, cb, h.1, events[1..]);
    }
  }

  /** PLANNING is published once per plan request, whether or not the
      pipeline resolves. */
  lemma {:induction false} RunCallbacksPlanningFeedback(m: Machine, env: Env, cb: PlanCallback, plan: ExecutablePlan, events: seq<ExecEvent>)
    ensures multiset(RunCallbacks(m, env, cb, plan, events).0.feedback)[PLANNING]
         == multiset(m.feedback)[PLANNING] + CountKind(events, PlanKind)
    decreases |events|
  {
    if |events| > 0 {
      var h := HandleEvent(m, env, cb, plan, events[0]);
      HandleEventFeedbackCounts(m, env, cb, plan, events[0]);
      RunCallbacksPlanningFeedback(h.0, env, cb, h.1, events[1..]);
    }
  }

  // ---- one goal ---------------------------------------------------------

  /** The report `ExecuteMoveCallback` adds. */
  function GoalReport(m: Machine, env: Env, goal: MoveGroupGoal, oracle: GoalOracle): Report
  {
    ExecuteMoveCallback(m, env, goal, oracle).reports[|m.reports|]
  }

  /** The preempt flag as the chosen path's checkpoint reads it. */
  predicate PreemptAtCheckpoint(m: Machine, oracle: GoalOracle)
  {
    m.preemptRequested || oracle.cancelWhileWaiting
  }

  /** The machine at which `planAndExecute` starts firing callbacks on the
      execute path. */
  function ExecStart(m: Machine, env: Env, goal: MoveGroupGoal, oracle: GoalOracle): Machine
  {
    var opt := ExecutionOptionsFor(env, goal);
    Record(InstallLookCallback(AtCheckpoint(m, oracle), opt), PlanAndExecute(ForwardedSceneDiff(env, goal), opt))
  }

  /** The callbacks of the execute path's `planAndExecute` run. */
  function ExecRun(m: Machine, env: Env, goal: MoveGroupGoal, oracle: GoalOracle): (Machine, ExecutablePlan)
  {
    RunCallbacks(ExecStart(m, env, goal, oracle), env, ExecutionOptionsFor(env, goal).planCallback, EmptyPlan,
                 oracle.execution.events)
  }

  /** A goal is the checkpoint, the chosen path, the report and the return
      to IDLE. */
  lemma GoalSteps(m: Machine, env: Env, goal: MoveGroupGoal, oracle: GoalOracle)
    ensures var m1 := AtCheckpoint(m, oracle);
            var p := RunPath(m1, env, goal, oracle);
            && ExecuteMoveCallback(m, env, goal, oracle).calls == p.0.calls
            && ExecuteMoveCallback(m, env, goal, oracle).feedback == p.0.feedback + [IDLE]
            && GoalReport(m, env, goal, oracle).result == p.1
            && (forall c | c in NewCalls(m, ExecuteMoveCallback(m, env, goal, oracle)) ::
                  c in NewCalls(m, m1) || c in NewCalls(m1, p.0))
            && (forall c | c in NewCalls(m1, p.0) :: c in NewCalls(m, ExecuteMoveCallback(m, env, goal, oracle)))
  {
    var m1 := AtCheckpoint(m, oracle);
    var p := RunPath(m1, env, goal, oracle);
    var m' := ExecuteMoveCallback(m, env, goal, oracle);
    assert m'.calls == p.0.calls;
    NewTracesSplit(m, m1, p.0);
    assert NewCalls(m, m') == NewCalls(m, m1) + NewCalls(m1, p.0);
  }

  /** A goal that never reaches `planAndExecute` publishes PLANNING and
      then IDLE, and nothing else. */
  lemma QuietGoalFeedback(m: Machine, env: Env, goal: MoveGroupGoal, oracle: GoalOracle)
    requires UsesPlanOnlyPath(env, goal) || PreemptAtCheckpoint(m, oracle)
    ensures ExecuteMoveCallback(m, env, goal, oracle).feedback == m.feedback + [PLANNING] + [IDLE]
  {
    GoalSteps(m, env, goal, oracle);
    var m1 := AtCheckpoint(m, oracle);
    var p := RunPath(m1, env, goal, oracle);
    if UsesPlanOnlyPath(env, goal) {
      assert p.0.feedback == m1.feedback;
    } else {
      assert m1.preemptRequested;
      assert p.0.feedback == m1.feedback;
    }
  }

  /** On the execute path past the checkpoint, a goal's traces are those of
      its `planAndExecute` run, started after the waits, the optional
      look-callback installation and the `planAndExecute` call itself. */
  lemma ExecutePathSteps(m: Machine, env: Env, goal: MoveGroupGoal, oracle: GoalOracle)
    requires !UsesPlanOnlyPath(env, goal) && !PreemptAtCheckpoint(m, oracle)
    ensures var opt := ExecutionOptionsFor(env, goal);
            ExecStart(m, env, goal, oracle).calls
              == m.calls + [WaitForCurrentRobotState, UpdateFrameTransforms]
                 + (if opt.planCallback.sensing.Some? then [SetBeforeLookCallback] else [])
                 + [PlanAndExecute(ForwardedSceneDiff(env, goal), opt)]
    ensures ExecStart(m, env, goal, oracle).feedback == m.feedback + [PLANNING]
    ensures var m' := ExecuteMoveCallback(m, env, goal, oracle);
            var run := ExecRun(m, env, goal, oracle);
            && m'.calls == run.0.calls
            && m'.feedback == run.0.feedback + [IDLE]
            && GoalReport(m, env, goal, oracle).result.plannedTrajectory == PlannedSegments(run.1.components)
  {
  }

  /** The plan-only path never starts `planAndExecute`, never installs the
      look callback and never reports an executed trajectory. */
  lemma PlanOnlyPathNeverExecutes(m: Machine, env: Env, goal: MoveGroupGoal, oracle: GoalOracle)
    requires UsesPlanOnlyPath(env, goal)
    ensures forall c | c in NewCalls(m, ExecuteMoveCallback(m, env, goal, oracle)) ::
              !c.PlanAndExecute? && !c.SetBeforeLookCallback?
    ensures GoalReport(m, env, goal, oracle).result.executedTrajectory.None?
  {
    GoalSteps(m, env, goal, oracle);
  }

  /** Off the plan-only path and past the checkpoint, `planAndExecute` runs
      on the forwarded scene diff and options, and the plan-only scene copy
      is never made. */
  lemma ExecutePathRuns(m: Machine, env: Env, goal: MoveGroupGoal, oracle: GoalOracle)
    requires !UsesPlanOnlyPath(env, goal) && !PreemptAtCheckpoint(m, oracle)
    ensures var m' := ExecuteMoveCallback(m, env, goal, oracle);
            && PlanAndExecute(ForwardedSceneDiff(env, goal), ExecutionOptionsFor(env, goal)) in NewCalls(m, m')
            && (forall c | c in NewCalls(m, m') :: !c.CopyPlanningScene?)
  {
    GoalSteps(m, env, goal, oracle);
    var m1 := AtCheckpoint(m, oracle);
    var p := RunPath(m1, env, goal, oracle);
    assert !m1.preemptRequested;
    assert PlanAndExecute(ForwardedSceneDiff(env, goal), ExecutionOptionsFor(env, goal)) in NewCalls(m1, p.0);
    assert forall c | c in NewCalls(m, m1) :: !c.CopyPlanningScene?;
    assert forall c | c in NewCalls(m1, p.0) :: !c.CopyPlanningScene?;
  }

  /** Off the plan-only path and past the checkpoint, the executed
      trajectory reported is the one execution stored in the plan. */
  lemma ExecutePathReportsExecution(m: Machine, env: Env, goal: MoveGroupGoal, oracle: GoalOracle)
    requires !UsesPlanOnlyPath(env, goal) && !PreemptAtCheckpoint(m, oracle)
    ensures GoalReport(m, env, goal, oracle).result.executedTrajectory == oracle.execution.executedTrajectory
  {
    GoalSteps(m, env, goal, oracle);
  }

  /** Off the plan-only path and past the checkpoint, the goal reports the
      code plan_execution settles on, or else the caught code of the last
      plan request whose pipeline resolved (UNSET when none did), ends with
      the outcome that code classifies to, and reports as planned exactly
      the last trajectory the action's planner produced. */
  lemma ExecutePathOutcome(m: Machine, env: Env, goal: MoveGroupGoal, oracle: GoalOracle)
    requires !UsesPlanOnlyPath(env, goal) && !PreemptAtCheckpoint(m, oracle)
    ensures var rep := GoalReport(m, env, goal, oracle);
            var code := ExecutionCode(env, ForwardedRequest(env, goal), oracle.execution);
            && rep.result.errorCode == code
            && rep.outcome == Classify(code)
            && rep.result.plannedTrajectory
               == SegmentsOf(PlannerTrajectory(env, ForwardedRequest(env, goal), oracle.execution.events))
  {
    GoalSteps(m, env, goal, oracle);
    OutcomeClassification(m, env, goal, oracle);
  }

  /** A cancel seen at the checkpoint ends the goal PREEMPTED with an empty
      result, before any pipeline is resolved, any plan generated or any
      execution started, on either path. */
  lemma PreemptionCheckpoint(m: Machine, env: Env, goal: MoveGroupGoal, oracle: GoalOracle)
    requires PreemptAtCheckpoint(m, oracle)
    ensures var rep := GoalReport(m, env, goal, oracle);
            rep.outcome == Preempted && rep.result == EmptyResult.(errorCode := PREEMPTED)
    ensures NoPlanningWork(m, ExecuteMoveCallback(m, env, goal, oracle))
  {
    GoalSteps(m, env, goal, oracle);
    var m1 := AtCheckpoint(m, oracle);
    var p := RunPath(m1, env, goal, oracle);
    assert m1.preemptRequested;
    if UsesPlanOnlyPath(env, goal) {
      assert p.0.calls == m1.calls && p.1 == EmptyResult.(errorCode := PREEMPTED);
      assert NewCalls(m1, p.0) == [];
    } else {
      assert p.1 == EmptyResult.(errorCode := PREEMPTED);
    }
    assert NoPlanningWork(m, m1) && NoPlanningWork(m1, p.0);
    forall c | c in NewCalls(m, ExecuteMoveCallback(m, env, goal, oracle))
      ensures !c.ResolvePipeline? && !c.GeneratePlan? && !c.PlanAndExecute?
    {
      assert c in NewCalls(m, m1) || c in NewCalls(m1, p.0);
    }
  }

  /** On the plan-only path, an unresolved pipeline aborts the goal with
      FAILURE, every other field of the result at its default, and no plan
      is generated. */
  lemma PlanOnlyUnresolvedPipeline(m: Machine, env: Env, goal: MoveGroupGoal, oracle: GoalOracle)
    requires UsesPlanOnlyPath(env, goal) && !PreemptAtCheckpoint(m, oracle)
    requires !env.pipelineFound(goal.request.pipelineId)
    ensures var rep := GoalReport(m, env, goal, oracle);
            rep.outcome == Aborted && rep.result.errorCode == FAILURE
    ensures GoalReport(m, env, goal, oracle).result == EmptyResult.(errorCode := FAILURE)
    ensures forall c | c in NewCalls(m, ExecuteMoveCallback(m, env, goal, oracle)) :: !c.GeneratePlan?
  {
    GoalSteps(m, env, goal, oracle);
    var m1 := AtCheckpoint(m, oracle);
    var p := RunPath(m1, env, goal, oracle);
    assert !m1.preemptRequested;
    assert PlanOnlyCalls(env, goal) == [ResolvePipeline(goal.request.pipelineId)];
    assert p.1 == EmptyResult.(errorCode := FAILURE);
    forall c | c in NewCalls(m, ExecuteMoveCallback(m, env, goal, oracle)) ensures !c.GeneratePlan? {
      assert c in NewCalls(m, m1) || c in NewCalls(m1, p.0);
    }
  }

  /** On the plan-only path with a resolved pipeline, the goal's request is
      planned as given, with no start-state clearing; an exception aborts
      with FAILURE but still reports whatever trajectory and planning time
      the planner left in its response, and a returned response's code,
      planning time and trajectory are what the result carries. */
  lemma PlanOnlyOutcome(m: Machine, env: Env, goal: MoveGroupGoal, oracle: GoalOracle)
    requires UsesPlanOnlyPath(env, goal) && !PreemptAtCheckpoint(m, oracle)
    requires env.pipelineFound(goal.request.pipelineId)
    ensures GeneratePlan(goal.request) in NewCalls(m, ExecuteMoveCallback(m, env, goal, oracle))
    ensures var rep := GoalReport(m, env, goal, oracle);
            oracle.planOnlyOutcome.Threw? ==> rep.outcome == Aborted && rep.result.errorCode == FAILURE
    ensures var rep := GoalReport(m, env, goal, oracle);
            var o := oracle.planOnlyOutcome;
            o.Threw? ==>
              && rep.result.plannedTrajectory == SegmentsOf(o.partial.trajectory)
              && rep.result.planningTime == o.partial.planningTime
    ensures var rep := GoalReport(m, env, goal, oracle);
            var o := oracle.planOnlyOutcome;
            o.Returned? ==>
              && rep.result.errorCode == o.response.errorCode
              && rep.result.planningTime == o.response.planningTime
              && rep.result.plannedTrajectory == SegmentsOf(o.response.trajectory)
              && rep.outcome == Classify(o.response.errorCode)
  {
    GoalSteps(m, env, goal, oracle);
  }

  /** A cancel that arrives after the plan-only checkpoint stops the
      execution subsystem but does not change the result: nothing on that
      path reads the flag again. */
  lemma LateCancelIgnoredOnPlanOnlyPath(m: Machine, env: Env, goal: MoveGroupGoal, o: PlanOutcome)
    requires !m.preemptRequested
    ensures ExecuteMoveCallbackPlanOnly(m, env, goal, true, o).1 == ExecuteMoveCallbackPlanOnly(m, env, goal, false, o).1
    ensures multiset(ExecuteMoveCallbackPlanOnly(m, env, goal, true, o).0.calls)[Stop]
         == multiset(m.calls)[Stop] + 1
  {
  }

  /** On the execute path past the checkpoint, the base planner runs on the
      forwarded request once per plan request when its pipeline resolves
      and never otherwise. */
  lemma ExecutePathPlannerCalls(m: Machine, env: Env, goal: MoveGroupGoal, oracle: GoalOracle)
    requires !UsesPlanOnlyPath(env, goal) && !PreemptAtCheckpoint(m, oracle)
    ensures var req := ForwardedRequest(env, goal);
            multiset(ExecuteMoveCallback(m, env, goal, oracle).calls)[GeneratePlan(req)]
            == multiset(m.calls)[GeneratePlan(req)]
               + (if env.pipelineFound(req.pipelineId) then CountKind(oracle.execution.events, PlanKind) else 0)
  {
    ExecutePathSteps(m, env, goal, oracle);
    RunCallbacksPlannerCalls(ExecStart(m, env, goal, oracle), env, ExecutionOptionsFor(env, goal).planCallback,
                             EmptyPlan, oracle.execution.events);
  }

  /** The cancels a goal's oracle delivers to the action: one during the
      robot-state wait, one after the plan-only checkpoint if the goal gets
      that far, and those fired inside the `planAndExecute` run if the
      execute path gets past its checkpoint. */
  function CancelsDelivered(m: Machine, env: Env, goal: MoveGroupGoal, oracle: GoalOracle): nat
  {
    (if oracle.cancelWhileWaiting then 1 else 0)
    + if PreemptAtCheckpoint(m, oracle) then 0
      else if UsesPlanOnlyPath(env, goal) then (if oracle.cancelAfterCheckpoint then 1 else 0)
      else CountKind(oracle.execution.events, CancelKind)
  }

  /** The plan-only path's own calls include no `stop()`. */
  lemma PlanOnlyCallsNoStop(env: Env, goal: MoveGroupGoal)
    ensures multiset(PlanOnlyCalls(env, goal))[Stop] == 0
  {
    if env.pipelineFound(goal.request.pipelineId) {
      assert PlanOnlyCalls(env, goal)
          == [ResolvePipeline(goal.request.pipelineId), CopyPlanningScene(goal.planningOptions.planningSceneDiff),
              GeneratePlan(goal.request)];
    } else {
      assert PlanOnlyCalls(env, goal) == [ResolvePipeline(goal.request.pipelineId)];
    }
  }

  /** A machine's calls are an earlier machine's calls and the new ones. */
  lemma CallsSplit(m: Machine, m': Machine)
    requires m.calls <= m'.calls
    ensures m'.calls == m.calls + NewCalls(m, m')
  {
  }

  /** Occurrences in a concatenation add up. */
  lemma CountAppend(a: seq<Call>, b: seq<Call>, x: Call)
    ensures multiset(a + b)[x] == multiset(a)[x] + multiset(b)[x]
  {
  }

  /** The plan-only path stops only for a cancel after its checkpoint. */
  lemma PlanOnlyStops(m1: Machine, env: Env, goal: MoveGroupGoal, c: bool, o: PlanOutcome)
    ensures multiset(ExecuteMoveCallbackPlanOnly(m1, env, goal, c, o).0.calls)[Stop]
            == multiset(m1.calls)[Stop] + if !m1.preemptRequested && c then 1 else 0
  {
    if !m1.preemptRequested {
      PlanOnlyCallsNoStop(env, goal);
      var late: seq<Call> := if c then [Stop] else [];
      CountAppend(m1.calls + late, PlanOnlyCalls(env, goal), Stop);
      CountAppend(m1.calls, late, Stop);
    }
  }

  /** The execute path stops once per cancel fired inside its run, and not
      at all when preempted at its checkpoint. */
  lemma ExecuteStops(m1: Machine, env: Env, goal: MoveGroupGoal, x: ExecOracle)
    ensures multiset(ExecuteMoveCallbackPlanAndExecute(m1, env, goal, x).0.calls)[Stop]
            == multiset(m1.calls)[Stop] + if m1.preemptRequested then 0 else CountKind(x.events, CancelKind)
  {
    var p := ExecuteMoveCallbackPlanAndExecute(m1, env, goal, x);
    var opt := ExecutionOptionsFor(env, goal);
    if m1.preemptRequested {
      CallsSplit(m1, p.0);
      CountAppend(m1.calls, NewCalls(m1, p.0), Stop);
    } else {
      var installed := InstallLookCallback(m1, opt);
      var start := Record(installed, PlanAndExecute(ForwardedSceneDiff(env, goal), opt));
      RunCallbacksStops(start, env, opt.planCallback, EmptyPlan, x.events);
      CallsSplit(m1, installed);
      CountAppend(m1.calls, NewCalls(m1, installed), Stop);
      CountAppend(installed.calls, [PlanAndExecute(ForwardedSceneDiff(env, goal), opt)], Stop);
    }
  }

  /** The wait before the checkpoint stops only for a cancel delivered
      during it. */
  lemma CheckpointStops(m: Machine, oracle: GoalOracle)
    ensures multiset(AtCheckpoint(m, oracle).calls)[Stop]
            == multiset(m.calls)[Stop] + if oracle.cancelWhileWaiting then 1 else 0
  {
    var m1 := AtCheckpoint(m, oracle);
    var early: seq<Call> := if oracle.cancelWhileWaiting then [Stop] else [];
    CallsSplit(m, m1);
    CountAppend(m.calls, NewCalls(m, m1), Stop);
    CountAppend([WaitForCurrentRobotState, UpdateFrameTransforms], early, Stop);
  }

  /** Every cancel delivered to the action during a goal, on either path,
      stops the execution subsystem exactly once, and nothing else does. */
  lemma StopOncePerCancel(m: Machine, env: Env, goal: MoveGroupGoal, oracle: GoalOracle)
    ensures multiset(ExecuteMoveCallback(m, env, goal, oracle).calls)[Stop]
            == multiset(m.calls)[Stop] + CancelsDelivered(m, env, goal, oracle)
  {
    var m1 := AtCheckpoint(m, oracle);
    var p := RunPath(m1, env, goal, oracle);
    assert ExecuteMoveCallback(m, env, goal, oracle).calls == p.0.calls;
    CheckpointStops(m, oracle);
    var later := if m1.preemptRequested then 0
                 else if UsesPlanOnlyPath(env, goal) then (if oracle.cancelAfterCheckpoint then 1 else 0)
                 else CountKind(oracle.execution.events, CancelKind);
    if UsesPlanOnlyPath(env, goal) {
      PlanOnlyStops(m1, env, goal, oracle.cancelAfterCheckpoint, oracle.planOnlyOutcome);
    } else {
      ExecuteStops(m1, env, goal, oracle.execution);
    }
    assert multiset(p.0.calls)[Stop] == multiset(m1.calls)[Stop] + later;
  }

  /** LOOK is published during a goal exactly once per look step, and only
      when the goal asks to look around, the service has a sensing loop, and
      the execute path gets past its checkpoint. */
  lemma LookOnlyWithSensing(m: Machine, env: Env, goal: MoveGroupGoal, oracle: GoalOracle)
    ensures multiset(ExecuteMoveCallback(m, env, goal, oracle).feedback)[LOOK]
            == multiset(m.feedback)[LOOK]
               + (if !UsesPlanOnlyPath(env, goal) && !PreemptAtCheckpoint(m, oracle)
                     && goal.planningOptions.lookAround && env.planWithSensing
                  then CountKind(oracle.execution.events, LookKind) else 0)
  {
    if !UsesPlanOnlyPath(env, goal) && !PreemptAtCheckpoint(m, oracle) {
      ExecutePathSteps(m, env, goal, oracle);
      RunCallbacksLooks(ExecStart(m, env, goal, oracle), env, ExecutionOptionsFor(env, goal).planCallback,
                        EmptyPlan, oracle.execution.events);
    } else {
      QuietGoalFeedback(m, env, goal, oracle);
    }
  }

  /** MONITOR is published during a goal exactly once per start of
      execution, and never on the plan-only path. */
  lemma MonitorOnlyWhenExecuting(m: Machine, env: Env, goal: MoveGroupGoal, oracle: GoalOracle)
    ensures multiset(ExecuteMoveCallback(m, env, goal, oracle).feedback)[MONITOR]
            == multiset(m.feedback)[MONITOR]
               + (if !UsesPlanOnlyPath(env, goal) && !PreemptAtCheckpoint(m, oracle)
                  then CountKind(oracle.execution.events, ExecuteKind) else 0)
  {
    if !UsesPlanOnlyPath(env, goal) && !PreemptAtCheckpoint(m, oracle) {
      ExecutePathSteps(m, env, goal, oracle);
      RunCallbacksMonitors(ExecStart(m, env, goal, oracle), env, ExecutionOptionsFor(env, goal).planCallback,
                           EmptyPlan, oracle.execution.events);
    } else {
      QuietGoalFeedback(m, env, goal, oracle);
    }
  }

  /** The execute path forwards the goal's request and scene diff with a
      supplied robot state cleared, and copies the replan policy and, when
      it wraps the planner, the sensing limits verbatim. */
  lemma RequestNormalisation(env: Env, goal: MoveGroupGoal)
    ensures var opt := ExecutionOptionsFor(env, goal);
            var po := goal.planningOptions;
            && (env.isEmptyState(goal.request.startState) ==> opt.planCallback.request == goal.request)
            && (!env.isEmptyState(goal.request.startState) ==>
                  opt.planCallback.request == env.clearRequestStartState(goal.request))
            && (env.isEmptyState(po.planningSceneDiff.robotState) ==>
                  ForwardedSceneDiff(env, goal) == po.planningSceneDiff)
            && (!env.isEmptyState(po.planningSceneDiff.robotState) ==>
                  ForwardedSceneDiff(env, goal) == env.clearSceneRobotState(po.planningSceneDiff))
            && opt.replan == po.replan && opt.replanDelay == po.replanDelay
            && (0 <= po.replanAttempts ==> opt.replanAttempts == po.replanAttempts)
            && (po.replanAttempts < 0 ==> opt.replanAttempts == po.replanAttempts + 0x1_0000_0000)
            && (opt.planCallback.sensing.Some? <==> po.lookAround && env.planWithSensing)
            && (opt.planCallback.sensing.Some? ==>
                  opt.planCallback.sensing.value == SensingConfig(po.lookAroundAttempts, po.maxSafeExecutionCost))
  {
  }

  /** Only the action's own planner fills the plan on the execute path, so
      the reported planned trajectory has at most one segment. */
  lemma ExecutePathPlannedSegments(m: Machine, env: Env, goal: MoveGroupGoal, oracle: GoalOracle)
    requires !UsesPlanOnlyPath(env, goal)
    ensures |GoalReport(m, env, goal, oracle).result.plannedTrajectory| <= 1
  {
    if !PreemptAtCheckpoint(m, oracle) {
      ExecutePathSteps(m, env, goal, oracle);
      assert PlannerShaped(ExecRun(m, env, goal, oracle).1.components);
    } else {
      GoalSteps(m, env, goal, oracle);
    }
  }

  /** The terminal report's outcome: succeeded exactly for SUCCESS,
      preempted exactly for PREEMPTED, aborted for every other code. */
  lemma OutcomeClassification(m: Machine, env: Env, goal: MoveGroupGoal, oracle: GoalOracle)
    ensures var rep := GoalReport(m, env, goal, oracle);
            && (rep.outcome == Succeeded <==> rep.result.errorCode == SUCCESS)
            && (rep.outcome == Preempted <==> rep.result.errorCode == PREEMPTED)
            && (rep.outcome == Aborted <==> rep.result.errorCode != SUCCESS && rep.result.errorCode != PREEMPTED)
  {
  }
}
