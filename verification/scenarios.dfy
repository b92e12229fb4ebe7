/** Three whole goals on the execute path, traced end to end from an idle
    action with empty traces. */
module MoveActionScenarios {
  import opened MoveItMsgs
  import opened Collaborators
  import opened MoveAction
  import opened MoveActionProperties

  const Idle := Machine(IDLE, false, [], [], [])

  /** A goal asking to plan and execute, without looking around. */
  predicate ExecuteGoal(env: Env, goal: MoveGroupGoal)
  {
    && !goal.planningOptions.planOnly
    && !goal.planningOptions.lookAround
    && env.allowTrajectoryExecution
    && env.pipelineFound(ForwardedRequest(env, goal).pipelineId)
  }

  /** Planning succeeds, execution starts and finishes with SUCCESS: the
      goal succeeds with one planned segment and the executed trajectory,
      publishing PLANNING (dispatch), PLANNING (planner), MONITOR, IDLE. */
  lemma PlanAndExecuteSucceeds(env: Env, goal: MoveGroupGoal, planned: Trajectory, executed: Trajectory)
    requires ExecuteGoal(env, goal)
    ensures var o := GoalOracle(false, false, Threw(MotionPlanResponse(None, 0.0, UNSET)),
                                ExecOracle([PlanRequested(Returned(true, MotionPlanResponse(Some(planned), 1.5, SUCCESS))),
                                            ExecutionStarting],
                                           Some(executed), None));
            var m' := ExecuteMoveCallback(Idle, env, goal, o);
            && m'.feedback == [PLANNING, PLANNING, MONITOR, IDLE]
            && m'.reports[0].outcome == Succeeded
            && m'.reports[0].result.plannedTrajectory == [planned]
            && m'.reports[0].result.executedTrajectory == Some(executed)
  {
    var o := GoalOracle(false, false, Threw(MotionPlanResponse(None, 0.0, UNSET)),
                        ExecOracle([PlanRequested(Returned(true, MotionPlanResponse(Some(planned), 1.5, SUCCESS))),
                                    ExecutionStarting],
                                   Some(executed), None));
    ExecutePathSteps(Idle, env, goal, o);
    var start := ExecStart(Idle, env, goal, o);
    var cb := ExecutionOptionsFor(env, goal).planCallback;
    var events := o.execution.events;
    var h := HandleEvent(start, env, cb, EmptyPlan, events[0]);
    assert h.0.feedback == [PLANNING, PLANNING];
    assert h.1.components == [PlanComponent(planned, "plan")];
    var h2 := HandleEvent(h.0, env, cb, h.1, ExecutionStarting);
    assert events[1..] == [ExecutionStarting] && events[1..][1..] == [];
    assert RunCallbacks(start, env, cb, EmptyPlan, events) == RunCallbacks(h.0, env, cb, h.1, [ExecutionStarting]);
    assert RunCallbacks(h.0, env, cb, h.1, [ExecutionStarting]) == RunCallbacks(h2.0, env, cb, h2.1, []);
    assert PlannedSegments(h2.1.components) == [planned];
  }

  /** A cancel arriving while the plan executes: the preempt callback stops
      execution exactly once and the goal ends PREEMPTED, IDLE, flag clear. */
  lemma CancelDuringExecution(env: Env, goal: MoveGroupGoal, planned: Trajectory)
    requires ExecuteGoal(env, goal)
    ensures var o := GoalOracle(false, false, Threw(MotionPlanResponse(None, 0.0, UNSET)),
                                ExecOracle([PlanRequested(Returned(true, MotionPlanResponse(Some(planned), 1.5, SUCCESS))),
                                            ExecutionStarting, CancelRequested],
                                           None, Some(PREEMPTED)));
            var m' := ExecuteMoveCallback(Idle, env, goal, o);
            && multiset(m'.calls)[Stop] == 1
            && m'.reports[0].outcome == Preempted
            && m'.state == IDLE && !m'.preemptRequested
  {
    var o := GoalOracle(false, false, Threw(MotionPlanResponse(None, 0.0, UNSET)),
                        ExecOracle([PlanRequested(Returned(true, MotionPlanResponse(Some(planned), 1.5, SUCCESS))),
                                    ExecutionStarting, CancelRequested],
                                   None, Some(PREEMPTED)));
    StopOncePerCancel(Idle, env, goal, o);
    var events := o.execution.events;
    assert events[1..] == [ExecutionStarting, CancelRequested];
    assert events[1..][1..] == [CancelRequested];
    assert events[1..][1..][1..] == [];
    assert CountKind([CancelRequested], CancelKind) == 1 + CountKind([], CancelKind);
    assert CountKind([ExecutionStarting, CancelRequested], CancelKind) == CountKind([CancelRequested], CancelKind);
    assert CountKind(events, CancelKind) == 1;
    GoalSteps(Idle, env, goal, o);
  }

  /** The planner throws and plan_execution leaves the code alone: the
      goal reports the caught FAILURE, aborts, and has no planned segment. */
  lemma PlannerThrowsOnExecutePath(env: Env, goal: MoveGroupGoal)
    requires ExecuteGoal(env, goal)
    ensures var o := GoalOracle(false, false, Threw(MotionPlanResponse(None, 0.0, UNSET)),
                                ExecOracle([PlanRequested(Threw(MotionPlanResponse(None, 0.0, UNSET)))], None, None));
            var rep := ExecuteMoveCallback(Idle, env, goal, o).reports[0];
            && rep.outcome == Aborted
            && rep.result.errorCode == FAILURE
            && rep.result.plannedTrajectory == []
  {
    var o := GoalOracle(false, false, Threw(MotionPlanResponse(None, 0.0, UNSET)),
                        ExecOracle([PlanRequested(Threw(MotionPlanResponse(None, 0.0, UNSET)))], None, None));
    ExecutePathOutcome(Idle, env, goal, o);
    var events := o.execution.events;
    assert events[..0] == [];
  }
}
