# MoveGroup move action, modelled in Dafny

This project models `MoveGroupMoveAction`, the capability of MoveIt's
`move_group` node that serves the "move" action. The action takes one goal
at a time. It publishes PLANNING and then takes one of two paths:

- the plan-only path, which calls a planning pipeline once;
- the plan-and-execute path, which hands a planning callback and an
  execution callback to plan_execution's `planAndExecute`.

It checks a preempt flag before any planning work starts. It turns the
result's error code into exactly one terminal report (succeeded, preempted
or aborted). It then publishes IDLE and clears the preempt flag.

The action's fields (`move_state_`, `preempt_requested_`) and three traces
form one immutable `Machine` value. The traces are the feedback it
published, the calls it made into collaborators, and the terminal reports
it produced. Every operation is a pure function from a machine to a new
machine.

Collaborators are inputs, not code:

- `Env` carries the service configuration: whether execution is allowed and
  whether a sensing loop exists. It also carries the helpers whose bodies
  live elsewhere, as function values. These are pipeline lookup, robot-state
  emptiness, start-state clearing, scene robot-state clearing and
  trajectory emptiness.
- `GoalOracle` fixes what the outside world does during one goal. It says
  whether a cancel arrives while the action waits for the robot state, and
  whether one arrives after the plan-only checkpoint. It gives what
  `generatePlan` returns or throws on the plan-only path. It also gives the
  run of `planAndExecute`: the callbacks it fires (plan requests with their
  planner outcome, look steps, execution start, cancels), the executed
  trajectory it stores, and the error code it leaves.

Files:

- `msgs.dfy`: the message types and error-code constants.
- `collaborators.dfy`: the collaborator interfaces and oracles.
- `move_action.dfy`: the action itself.
- `properties.dfy`: the lemmas that relate several steps or a whole goal.
- `scenarios.dfy`: three goals traced end to end.

## Model

| member | source | states |
|---|---|---|
| MoveAction.SetMoveState | moveit_ros/move_group/src/default_capabilities/move_action_capability.cpp:239-244 | the current state is always the last state published: the new state becomes current and is appended to the feedback; the preempt flag, calls and reports are untouched |
| MoveAction.StartMoveExecutionCallback | moveit_ros/move_group/src/default_capabilities/move_action_capability.cpp:223-226 | the before-execution callback moves the action to MONITOR and publishes exactly that, changing nothing else |
| MoveAction.StartMoveLookCallback | moveit_ros/move_group/src/default_capabilities/move_action_capability.cpp:228-231 | the before-look callback moves the action to LOOK and publishes exactly that, changing nothing else |
| MoveAction.PreemptMoveCallback | moveit_ros/move_group/src/default_capabilities/move_action_capability.cpp:233-237 | a cancel raises the preempt flag and calls `stop()` exactly once; state and feedback are untouched |
| MoveAction.PlanUsingPlanningPipeline | moveit_ros/move_group/src/default_capabilities/move_action_capability.cpp:188-221 | publishes PLANNING. An unresolved pipeline returns false without generating a plan and leaves the plan untouched, error code included. Otherwise it takes the plan's own copy of its scene and plans once, in that order after the lookup: a produced trajectory becomes the single component described "plan", and the plan's error code is the response's. A throw yields false with FAILURE. Solved is never true without a resolved pipeline |
| MoveAction.HandleEvent | moveit_ros/move_group/src/default_capabilities/move_action_capability.cpp:188-237 | one callback fired by `planAndExecute` only extends the traces. It never publishes IDLE and never clears the preempt flag. Its only calls are resolving the forwarded request's pipeline, copying the plan's own scene, planning that request, or `stop()`; a look step and an execution start make no call at all, and a cancel makes exactly one `stop()`. It keeps the current state equal to the last published one |
| MoveAction.RunCallbacks | moveit_ros/move_group/src/default_capabilities/move_action_capability.cpp:118-142 | a whole `planAndExecute` run has the same guarantees as one callback. In addition, a preempt flag once raised stays raised, and a plan that starts with no component ends with none or with one component described "plan" |
| MoveAction.PlannerCodeCons | moveit_ros/move_group/src/default_capabilities/move_action_capability.cpp:208-219 | reading the callbacks of a run one at a time from the front gives the same code as the backward definition: the code a first callback leaves is where the rest starts |
| MoveAction.PlannerTrajectoryCons | moveit_ros/move_group/src/default_capabilities/move_action_capability.cpp:213-218 | a trajectory produced by a later plan request replaces any produced by an earlier one; without a later one the earlier one stays |
| MoveAction.RunCallbacksPlan | moveit_ros/move_group/src/default_capabilities/move_action_capability.cpp:188-221 | after a whole run, the plan's error code is the caught code of the last plan request whose pipeline resolved (a throw counts as FAILURE), and is the starting code when none resolved. Its components are one "plan" component holding the last trajectory any resolved request produced, and are the starting ones when none produced a trajectory |
| MoveAction.Classify | moveit_ros/move_group/src/default_capabilities/move_action_capability.cpp:85-93 | succeeded exactly for SUCCESS, preempted exactly for PREEMPTED, aborted exactly for every other code |
| MoveAction.PlanOnlyPlanning | moveit_ros/move_group/src/default_capabilities/move_action_capability.cpp:164-185 | the calls are exactly the lookup, then, if it resolves, the scene monitor's copy of the goal's diff and `generatePlan` on the goal's own request. An unresolved pipeline gives FAILURE with every other field at its default. Otherwise the response's trajectory and planning time are reported whether the planner returned or threw; the code is the response's after a return and FAILURE after a throw. Nothing is published and no executed trajectory is reported |
| MoveAction.PlanOnlyPastCheckpoint | moveit_ros/move_group/src/default_capabilities/move_action_capability.cpp:157-185 | once the checkpoint has passed, planning goes ahead even if a cancel arrives, and the flag is raised afterwards exactly when such a cancel came. The calls are exactly that cancel's `stop()`, if any, followed by the plan-only calls. The result is the plan-only result: FAILURE with defaults for an unresolved pipeline, else the response's trajectory and planning time, with FAILURE as the code after a throw. The path never starts execution or installs the look callback |
| MoveAction.ExecuteMoveCallbackPlanOnly | moveit_ros/move_group/src/default_capabilities/move_action_capability.cpp:150-186 | a raised flag gives PREEMPTED with an empty result and no call. The flag is raised afterwards exactly when it was raised before or a cancel arrived after the checkpoint. Otherwise the calls are exactly a late cancel's `stop()`, if any, then the lookup and, if it resolves, the scene copy and `generatePlan` on the goal's request as given; the result is FAILURE with defaults for an unresolved pipeline, else the response's trajectory and planning time, with the response's code or FAILURE after a throw. The path never starts execution or reports an executed trajectory, and publishes nothing |
| MoveAction.ToUnsigned | moveit_ros/move_group/src/default_capabilities/move_action_capability.cpp:116 | assigning the goal's `int32` replan attempts to the unsigned option keeps a non-negative count and wraps a negative one to it plus 2^32 |
| MoveAction.ExecutionOptionsFor | moveit_ros/move_group/src/default_capabilities/move_action_capability.cpp:108-131 | the planning callback plans the forwarded request. The sensing wrapper is installed exactly when the goal asks to look around and the service has a sensing loop |
| MoveAction.InstallLookCallback | moveit_ros/move_group/src/default_capabilities/move_action_capability.cpp:123-132 | the before-look callback is installed exactly when the sensing wrapper is, and nothing is published |
| MoveAction.StartPlanAndExecute | moveit_ros/move_group/src/default_capabilities/move_action_capability.cpp:142 | `planAndExecute` is called with the given diff and options; what its callbacks add never publishes IDLE, never installs the look callback and never makes the scene monitor's copy of the goal's scene diff (the planner copies only the plan's own scene). Starting from an empty plan, the plan's code is that of the last resolved plan request (UNSET if none), and its components are the single "plan" component of the last trajectory produced, or none |
| MoveAction.PlanAndExecuteRun | moveit_ros/move_group/src/default_capabilities/move_action_capability.cpp:142-147 | `planAndExecute` is called with the given scene diff and options. Its run adds no look installation and no scene-monitor copy of the goal's scene diff. The executed trajectory reported is the one execution stored, and the planning time is left at zero. The reported code is the one `planAndExecute` settles on, or else the caught code of the last resolved plan request, or UNSET if the planner never ran. The planned trajectory is the last trajectory the planner produced, as one segment, or empty |
| MoveAction.ExecuteMoveCallbackPlanAndExecute | moveit_ros/move_group/src/default_capabilities/move_action_capability.cpp:100-148 | the look callback is installed exactly when both look flags hold, even if the goal is then preempted. A raised flag gives PREEMPTED and an empty result, and the look installation is then the only call. Otherwise `planAndExecute` runs on the forwarded diff and options. The reported code and planned trajectory are those of the run on the forwarded request, as for `PlanAndExecuteRun`. IDLE is never published here |
| MoveAction.RunPath | moveit_ros/move_group/src/default_capabilities/move_action_capability.cpp:71-80 | whichever path runs extends the traces, adds no report, never publishes IDLE and never clears a raised preempt flag |
| MoveAction.AtCheckpoint | moveit_ros/move_group/src/default_capabilities/move_action_capability.cpp:65-68 | PLANNING is the first feedback of a goal; before the checkpoint the goal only waits for the robot state, updates transforms and stops for a cancel; the flag the checkpoint reads is the one held before the goal or raised by a cancel during the wait |
| MoveAction.CompleteGoal | moveit_ros/move_group/src/default_capabilities/move_action_capability.cpp:85-97 | every goal ends by adding its report, publishing IDLE and clearing the preempt flag, and makes no call there |
| MoveAction.ExecuteMoveCallback | moveit_ros/move_group/src/default_capabilities/move_action_capability.cpp:63-98 | on every path that returns, the goal publishes PLANNING first and IDLE last, and IDLE nowhere in between. It adds exactly one report, whose outcome classifies the result code and which carries the goal's plan-only flag. It ends with state IDLE and the preempt flag cleared |
| MoveActionProperties.HandleEventCallCounts | moveit_ros/move_group/src/default_capabilities/move_action_capability.cpp:188-237 | a plan request adds one `generatePlan` when the pipeline resolves and none otherwise; a cancel adds one `stop()`; no other callback adds either |
| MoveActionProperties.HandleEventFeedbackCounts | moveit_ros/move_group/src/default_capabilities/move_action_capability.cpp:188-237 | a plan request adds one PLANNING, a look step adds LOOK only under the sensing wrapper, and execution start adds one MONITOR; no other callback publishes any of these |
| MoveActionProperties.RunCallbacksPlannerCalls | moveit_ros/move_group/src/default_capabilities/move_action_capability.cpp:188-206 | over a run, `generatePlan` is called once per plan request if the forwarded request's pipeline resolves, and never otherwise |
| MoveActionProperties.RunCallbacksStops | moveit_ros/move_group/src/default_capabilities/move_action_capability.cpp:233-237 | over a run, `stop()` is called exactly once per cancel, and any cancel leaves the flag raised |
| MoveActionProperties.RunCallbacksLooks | moveit_ros/move_group/src/default_capabilities/move_action_capability.cpp:123-131 | over a run, LOOK is published once per look step when the sensing wrapper is installed, and never otherwise |
| MoveActionProperties.RunCallbacksMonitors | moveit_ros/move_group/src/default_capabilities/move_action_capability.cpp:223-226 | over a run, MONITOR is published exactly once per start of execution |
| MoveActionProperties.RunCallbacksPlanningFeedback | moveit_ros/move_group/src/default_capabilities/move_action_capability.cpp:188-191 | over a run, PLANNING is published once per plan request, even when the pipeline does not resolve |
| MoveActionProperties.GoalSteps | moveit_ros/move_group/src/default_capabilities/move_action_capability.cpp:63-98 | a goal's calls are the wait, the transform update and any cancel's `stop()`, then the chosen path's calls; the report carries the path's result |
| MoveActionProperties.ExecutePathSteps | moveit_ros/move_group/src/default_capabilities/move_action_capability.cpp:100-147 | past the checkpoint, the execute path calls the wait, the update, the optional look installation and `planAndExecute`, in that order, before any callback. The reported planned trajectory is the plan's components in order |
| MoveActionProperties.PlanOnlyPathNeverExecutes | moveit_ros/move_group/src/default_capabilities/move_action_capability.cpp:71-78 | when the goal is plan-only or execution is disallowed, `planAndExecute` is never called, no look callback is installed and no executed trajectory is reported |
| MoveActionProperties.ExecutePathRuns | moveit_ros/move_group/src/default_capabilities/move_action_capability.cpp:79-80 | otherwise, past the checkpoint, `planAndExecute` runs on the forwarded diff and options, and the plan-only path's scene-monitor copy of the goal's diff is never made |
| MoveActionProperties.ExecutePathReportsExecution | moveit_ros/move_group/src/default_capabilities/move_action_capability.cpp:142-146 | past the execute-path checkpoint, the executed trajectory reported is the one execution stored in the plan |
| MoveActionProperties.ExecutePathOutcome | moveit_ros/move_group/src/default_capabilities/move_action_capability.cpp:142-147 | past the execute-path checkpoint, the reported code is the one `planAndExecute` settles on, or else the caught code of the last plan request whose pipeline resolved, or UNSET if none did; the outcome is that code's classification; the planned trajectory is the last one the action's planner produced, or empty |
| MoveActionProperties.PreemptionCheckpoint | moveit_ros/move_group/src/default_capabilities/move_action_capability.cpp:135-162 | if the flag is raised at the checkpoint, on either path, the goal is reported preempted with an empty PREEMPTED result. No pipeline is resolved, no plan is generated and `planAndExecute` is not called |
| MoveActionProperties.PlanOnlyUnresolvedPipeline | moveit_ros/move_group/src/default_capabilities/move_action_capability.cpp:164-170 | on the plan-only path an unresolved pipeline aborts with FAILURE, every other field of the result at its default, and `generatePlan` is never called |
| MoveActionProperties.PlanOnlyOutcome | moveit_ros/move_group/src/default_capabilities/move_action_capability.cpp:172-185 | on the plan-only path the goal's request is planned unnormalised. An exception aborts with FAILURE but still reports the trajectory and planning time left in the response. A returned response's code, planning time and trajectory are the result's, and its code decides the outcome |
| MoveActionProperties.LateCancelIgnoredOnPlanOnlyPath | moveit_ros/move_group/src/default_capabilities/move_action_capability.cpp:157-185 | a cancel after the plan-only checkpoint calls `stop()` once but leaves the result exactly as without it |
| MoveActionProperties.ExecutePathPlannerCalls | moveit_ros/move_group/src/default_capabilities/move_action_capability.cpp:120-121 | over a whole execute-path goal, the forwarded request is planned once per plan request if its pipeline resolves, and never otherwise |
| MoveActionProperties.StopOncePerCancel | moveit_ros/move_group/src/default_capabilities/move_action_capability.cpp:233-237 | on every goal, `stop()` is called exactly once per cancel delivered to the action: during the robot-state wait, after a plan-only checkpoint that let the goal through, or inside an execute-path run that got past its checkpoint; nothing else calls it |
| MoveActionProperties.CheckpointStops | moveit_ros/move_group/src/default_capabilities/move_action_capability.cpp:65-68 | the robot-state wait before the checkpoint adds a `stop()` exactly when a cancel arrives during it |
| MoveActionProperties.PlanOnlyStops | moveit_ros/move_group/src/default_capabilities/move_action_capability.cpp:150-186 | the plan-only path adds a `stop()` only for a cancel after a checkpoint it passed, and exactly one then |
| MoveActionProperties.ExecuteStops | moveit_ros/move_group/src/default_capabilities/move_action_capability.cpp:100-148 | the execute path adds no `stop()` when preempted at its checkpoint, and otherwise exactly one per cancel fired inside its run |
| MoveActionProperties.QuietGoalFeedback | moveit_ros/move_group/src/default_capabilities/move_action_capability.cpp:63-98 | a goal on the plan-only path, or one preempted at its checkpoint, publishes exactly PLANNING and then IDLE |
| MoveActionProperties.LookOnlyWithSensing | moveit_ros/move_group/src/default_capabilities/move_action_capability.cpp:123-131 | a goal publishes LOOK once per look step only in one case: the execute path passed its checkpoint, the goal looks around, and the service has a sensing loop. Otherwise it publishes no LOOK |
| MoveActionProperties.MonitorOnlyWhenExecuting | moveit_ros/move_group/src/default_capabilities/move_action_capability.cpp:118 | a goal publishes MONITOR once per start of execution, and never on the plan-only path or after a checkpoint preemption |
| MoveActionProperties.RequestNormalisation | moveit_ros/move_group/src/default_capabilities/move_action_capability.cpp:108-131 | the forwarded request is the goal's when its start state is empty and the cleared copy otherwise. The scene diff is treated the same way on its robot state. Replan flag and delay are copied; the `int32` replan attempts become unsigned, so a negative count wraps to it plus 2^32. The sensing attempts and cost limit are copied when wrapped |
| MoveActionProperties.ExecutePathPlannedSegments | moveit_ros/move_group/src/default_capabilities/move_action_capability.cpp:213-218 | on the execute path the reported planned trajectory has at most one segment, because only the action's planner fills the plan |
| MoveActionProperties.OutcomeClassification | moveit_ros/move_group/src/default_capabilities/move_action_capability.cpp:82-93 | the report of any goal is succeeded iff its code is SUCCESS, preempted iff PREEMPTED, aborted otherwise |
| MoveActionScenarios.PlanAndExecuteSucceeds | moveit_ros/move_group/src/default_capabilities/move_action_capability.cpp:63-148 | a successful plan, then a successful execution, yields succeeded. The result holds one planned segment and the executed trajectory. The feedback is PLANNING, PLANNING, MONITOR, IDLE |
| MoveActionScenarios.PlannerThrowsOnExecutePath | moveit_ros/move_group/src/default_capabilities/move_action_capability.cpp:208-219 | a planner that throws on the execute path, with `planAndExecute` leaving the code alone, makes the goal abort with FAILURE and no planned segment |
| MoveActionScenarios.CancelDuringExecution | moveit_ros/move_group/src/default_capabilities/move_action_capability.cpp:233-237 | a cancel during execution calls `stop()` exactly once. The goal ends preempted, IDLE and with the flag cleared |

The code publishes PLANNING twice on the execute path. `executeMoveCallback`
publishes it once, and the planning callback publishes it again on every
plan request. So a simple plan-and-execute goal publishes PLANNING,
PLANNING, MONITOR, IDLE, not PLANNING, MONITOR, IDLE. The model follows the
code.

On the execute path, an unresolved pipeline writes FAILURE only into the
callback's local response. The plan keeps the error code it had, and
`planUsingPlanningPipeline` returns false. The model follows the code here
too; what `planAndExecute` makes of the false return is part of its oracle.

## Left out

- Action server setup, transport and class-loader registration. This covers
  `initialize`, `publishFeedback` and the internals of
  `setSucceeded`/`setPreempted`/`setAborted`. Feedback and reports are
  appended to traces instead.
- `waitForCurrentRobotState`, `updateFrameTransforms`, the scene monitor's
  `copyPlanningScene` and the plan's own `copyPlanningScene`. They are
  recorded as calls with no effect, because they are blocking I/O on the
  scene monitor or scene copies whose contents only the planner reads.
- `generatePlan`, `planAndExecute` (with its replan loop) and the sensing
  loop's `computePlan`. They are external code, so their outcomes are
  oracle values. Consistency between the oracle's events and its final code
  or executed trajectory is not constrained.
- `resolvePlanningPipeline`, `moveit::core::isEmpty`,
  `clearRequestStartState`, `clearSceneRobotState` and `isTrajectoryEmpty`.
  They are defined outside the core, so they are uninterpreted function
  values of `Env`. A pipeline lookup gives the same answer for the same id
  throughout a goal.
- `getActionResultString`. The message text is not modelled; the report
  records the three arguments it is built from.
- `convertToMsg` and `getRobotTrajectoryMsg`. The planned trajectory is the
  ordered list of planned segments, and the result's `trajectory_start` is
  not modelled.
- The return value of the sensing wrapper (`computePlan`'s result). Only the
  callbacks it fires are modelled. A look step fired while no sensing
  wrapper is installed is ignored, because `computePlan` is the only caller
  of the look callback and it runs only inside the wrapper.
- The before-look callback staying installed on the shared sensing object
  after the goal. Only its installation is recorded.
- Cross-thread timing and memory visibility of the preempt flag. A cancel is
  delivered at fixed points: during the robot-state wait, after the
  plan-only checkpoint, or as an event inside the `planAndExecute` run. A
  cancel between the end of a path and the report would only add a
  `stop()` before the flag is cleared; it is not modelled.
- Logging (`ROS_INFO`, `ROS_WARN`, `ROS_ERROR`), including the warning
  given when a goal asks for execution that is disallowed.
- MoveActionProperties.ExecutePathPlannedSegments: rests on an assumption
  about `planAndExecute`, whose code is not part of this model. The oracle
  lets it set only the executed trajectory and the final error code; it
  changes the plan's components only through the plan callback, and this
  action installs no repair callback. Under that assumption only the
  action's own planner fills the plan.
- Exceptions other than a `std::exception` thrown by `generatePlan`, which
  both planning paths catch and turn into FAILURE. Every other
  collaborator is assumed to return normally: `waitForCurrentRobotState`,
  `planAndExecute`, `convertToMsg`, and anything throwing a non-standard
  exception. A goal whose collaborator throws past the action never reports
  and never returns to IDLE, so every whole-goal guarantee here is about
  goals that return.
- The order of the two calls inside the plan-only and planning-callback
  `try` blocks. A throw from the scene copy would land in the same `catch`
  as a throw from `generatePlan`; the model records both calls whenever
  the pipeline resolves, so it does not tell these two throws apart.
- The width of the sensing loop's `attempts` parameter. `computePlan` is not
  part of this model, so the goal's `int32` look-around attempts are passed
  on unconverted.
