# Verified model of the embodied skill executor

This project models the frozen reasoning core of `embodied_skill_ros` in Dafny and proves what
it promises: ground a plan against epistemic state, repair it by a bounded backward search over
declared effects, execute it one verified step at a time, and on failure retry, repair, replan
or stop. Beside the core it models the deterministic mock robot with its hidden world and
oracle, the built-in skills, and the two observation barriers of the ROS transports.

`dafny verify dfyconfig.toml` checks everything.

## How to read it

| files | what they hold |
|---|---|
| `Values`, `RobotState`, `Templates`, `Skills`, `Registry`, `Capabilities`, `DefaultSkills`, `DefaultTables` | Python values, epistemic snapshots, field templates, contracts, effect inversion, the registry, the backend boundary, the five built-in skills and what they accept |
| `Grounder`, `GrounderSpec`, `GrounderStops`, `GrounderIssues`, `GrounderLoops` | the issue-collecting grounder and constraint checker, what it decides, which reports stop, what they contain and ask for, and the same as loops |
| `Repairer`, `RepairSoundness`, `RepairBounds`, `RepairTheorems`, `RepairGoals`, `RepairIds`, `SearchCompleteness`, `SearchShortest`, `SearchLimits`, `RepairerLoops` | the search and the repair as functions over threaded counters, their theorems, and the class with its mutable statistics |
| `Replanner`, `ReplanGoals` | goal-directed replanning, and what a new plan achieves |
| `Executor`, `Transitions`, `RunDecisions`, `RunPreflight`, `RunGoals`, `RunSafety`, `RunTermination`, `RunRecovery`, `RunReplanning`, `RunAdequacy`, `RunLaunch`, `ExecutorLoops` | the execution loop as a state machine against an arbitrary backend, exactly when it does what, its whole-run theorems, and the classes and nested loops that follow the machine iteration by iteration |
| `MockBackend`, `MockSensing`, `MockFaults`, `MockTruth`, `MockRetry`, `MockLift`, `MockContracts`, `MockMotion`, `MockArmFirst`, `MockRefresh`, `MockDrift`, `MockSafety`, `MockRuns`, `MockDefaultRetry` | the mock, its evidence and faults, reports against hidden truth, exact retries, built-in skills on the mock, evidence refreshed and plans repaired before launch and after a drift, what the hidden world is spared, runs that end, and retries of every built-in call |
| `AgvBarrier`, `Ros2Cache` | the AGV observation barrier and the ROS2 observation cache |

A run is a sequence of loop heads. `Executor.Start` is everything before the step loop,
`Executor.Advance` is one iteration of the step loop (head `Outer`) or of the attempt loop (head
`Inner`), and `Executor.After(x, plan, log, last, n)` is the run after `n` iterations. The backend is
a set of total functions of the whole log of past events, so every theorem about `x: Setup` holds
against every backend, including one that plays against the executor. The clock is one more such
function: each use of it at each point of a run may read differently. A theorem about all `n`
is a theorem about every reachable loop head, of runs that end and of runs that do not.

Functions are the specifications: `Grounder.Ground`, `Repairer.Repair`, `Replanner.Replan`,
`Executor.Advance`, `MockBackend.Command`. Where the source works by loops and assignments there
is also a method or a class that does the same and is proved to compute the function.

## Results that may surprise

* Termination depends on the configuration. `REGROUND` returns to the step loop with a fresh
  attempt count, so where the guard lets through a call that may be retried, a backend whose
  guard verdict flickers keeps the executor dispatching for ever
  (`RunTermination.FlickerNeverEnds`); with the guard, recovery or retries off, or no such call,
  every run ends. This is an if and only if (`RunTermination.ConfigurationDecidesTermination`,
  and for the built-in skills `MockRuns.DefaultTermination`). On a steady backend, such as the
  mock, every run ends anyway (`RunTermination.SteadyRunEnds`, `MockRuns.MockRunEnds`).
* A success report can be false exactly about fields that the sensors make up or that the
  executor reports itself (`MockTruth.NoFalseSuccess`, `MockTruth.DeceptionExact`). The
  oracle's default tolerance is finer than the report's, so on the same facts it disagrees
  exactly in between (`MockTruth.OracleIsFiner`, `MockTruth.OracleConfirms`).
* A repaired plan can fail grounding on an id: repair numbers its steps from one again, so a
  plan that already holds a step with such an id gets a duplicate. It happens exactly when a
  given id is the id of an inserted step (`RepairIds.RepairAccepted`).
* The search answers with the earliest of its candidates' shortest proposals
  (`SearchShortest.SearchChoosesShortest`), but each missing fact is searched for on its own, so
  the answer need not be a shortest path, although the methodology document says so
  (`docs/BENCHMARK_V2_METHODOLOGY.md:157`): `SearchShortest.AnswerNeedNotBeShortest` has an answer of
  three steps whose last two would do.
* A replanned step is sure to meet its goal where what a skill predicts for a field is settled by
  one effect (`ReplanGoals.ReplanServesGoals`); a skill that takes back what it achieves makes a plan
  whose own projection misses the goal (`ReplanGoals.UndoingReplanMisses`).
* `RESOURCE_BUSY` is reported as repairable, yet no plan with such a step is ever accepted
  (`RepairTheorems.BusyResourceIsNeverRepaired`), because projection never frees a resource.
* The structural-change check of the replanner can never be what rejects a plan inside a run
  (`RunReplanning.SignatureTestNeverFires`).
* The mock's `extend_arm` and `move_agv` write a field their contracts do not declare;
  `MockContracts.ContractRealisedExactly` says exactly when that makes a difference.
* An observation after a command that timed out reads the ROS2 cache once more and then forgets
  that it was waiting: unless something newer came in at the last moment, it and the next one
  return the sample from before the command (`Ros2Cache.LateObservationForgets`), while the AGV
  barrier stays armed (`AgvBarrier.BarrierStaysArmed`). The AGV barrier in turn covers accepted
  navigations only, not one that was rejected or timed out (`AgvBarrier.OnlyAcceptanceGuards`).
  And the first wait of the ROS2 backend ignores a sample numbered zero
  (`Ros2Cache.FirstWaitSkipsZero`).

## Model

| member | source | states |
|---|---|---|
| RunLaunch.LaunchMeansSuccess | embodied_skill_ros/execution/skill_executor.py:113-333 | closed loop: a plan without stated goals that preflight launches, as given, after fresh evidence or repaired, succeeds against any backend that honours met contracts, with one command per launched step in order |
| RunLaunch.LaunchedPlanExecutes | embodied_skill_ros/execution/skill_executor.py:113-333 | for any goals: every launched step is sent once and in order, the world passes through the simulated states, and the report is a success exactly when the goals hold where the simulation ends |
| RunLaunch.ProjectionReachesGoals | embodied_skill_ros/execution/skill_executor.py:53-69 | goals projected by the executor or recomputed by the repairer hold at the end of the launched plan's own simulation |
| RunAdequacy.GroundedPlanExecutes | embodied_skill_ros/execution/skill_executor.py:173-333 | adequacy of grounding: an accepted plan on a faithful backend succeeds with one command per step in plan order, and the world after step i is the grounder's i-th simulated state |
| RunAdequacy.PredictedIsVerified | embodied_skill_ros/skills/base_skill.py:252-278 | observing exactly the predicted values makes outcome verification succeed, whatever else is known |
| RunAdequacy.ProjectedGoalsReached | embodied_skill_ros/execution/skill_executor.py:53-69 | the goals that `_with_goal_state` projects from a grounded plan hold where its simulation ends |
| RunAdequacy.GroundedIsPredictable | embodied_skill_ros/skills/base_skill.py:113-120 | when no two active effects write one field, no effect of a grounded step can raise |
| RunAdequacy.FaithfulBackendsExist | embodied_skill_ros/backends/base_backend.py:76-96 | the adequacy hypothesis can be met by some backend for every registry with sensible limits |
| RunSafety.Runs | embodied_skill_ros/execution/skill_executor.py:113-333 | every run is refused in preflight for good, or keeps the dispatch, attestation, history, stop and budget invariants at every loop head |
| RunSafety.GuardedDispatch | embodied_skill_ros/execution/skill_executor.py:182-241 | with the guard on, each command directly follows an observation in which every precondition's field has the expected value, is not marked stale, has no differing reports and is no older than its limit at the guard's clock reading, nothing is stopped, no fault is reported and no needed resource is busy |
| RunSafety.GuardExact | embodied_skill_ros/execution/runtime_guard.py:21-24 | the guard allows a call exactly on such evidence |
| RunSafety.EveryResultAttested | embodied_skill_ros/execution/skill_executor.py:226-258 | each result belongs to one logged command, its verdict compares the observation right before it with the one right after, and every command has a result |
| RunSafety.HistoryIsPlanPrefix | embodied_skill_ros/execution/skill_executor.py:226-323 | at every loop head the achieved results since the last adopted replan are the calls of `plan.steps[:index]` in order |
| RunSafety.SuccessMeansPlanAchieved | embodied_skill_ros/execution/skill_executor.py:324-333 | a success report means every step of the final plan was achieved, in order |
| RunSafety.StopsExactlyOnFailure | embodied_skill_ros/execution/skill_executor.py:142-333 | a preflight refusal sends nothing; a launched run that fails stops the backend once, as its last action, with STOP last in the trace; any other run never stops it |
| RunSafety.CommandBound | embodied_skill_ros/execution/skill_executor.py:173-323 | at most (max_retries + 1) commands for each completed step, REGROUND and adopted replan, and one round more |
| RunTermination.ConfigurationDecidesTermination | embodied_skill_ros/execution/skill_executor.py:226-323 | every run of every plan ends, against every backend, if and only if the guard is off, recovery is off, there is no retry, or no call of a skill that may be retried passes the guard on any state; with preflight grounding on, this assumes that if there are such calls the effects of one of them have values |
| RunTermination.AssignmentsAreForeseen | embodied_skill_ros/execution/skill_executor.py:226-323 | that assumption holds of every well-formed registry in which the skills that may be retried only assign |
| RunTermination.TerminationExact | embodied_skill_ros/execution/skill_executor.py:270-282 | the same for one plan that can be launched on a retryable first step |
| RunTermination.RunWithoutRegroundEnds | embodied_skill_ros/execution/skill_executor.py:173-333 | where the guard, recovery or retries are off, or the guard lets through no call that may be retried, every run ends against any backend |
| RunTermination.SteadyRunEnds | embodied_skill_ros/execution/skill_executor.py:173-333 | the companion on the side of the backend: whatever the configuration, every run ends if two refreshes with nothing between them give the same guard verdict |
| RunTermination.AdvanceShrinks | embodied_skill_ros/execution/skill_executor.py:173-323 | each iteration decreases replans left, guard-failure budget left, steps left and attempt phase, lexicographically |
| RunTermination.FlickerNeverEnds | embodied_skill_ros/execution/skill_executor.py:270-282 | for every configuration that can REGROUND and every plan that launches on a state whose guard allows its retryable first step, a backend exists against which the run never ends |
| MockRuns.DefaultTermination | embodied_skill_ros/execution/skill_executor.py:226-323 | with the built-in skills every run ends, against every backend, if and only if the guard, recovery or retries are off |
| MockRuns.MockRunEnds | embodied_skill_ros/backends/mock_backend.py:105-203 | every run on the mock ends, whatever is hidden, overridden, stale, contradictory, drifting or faulty, if the guard reads its evidence in time |
| MockRuns.MockIsSteady | embodied_skill_ros/backends/mock_backend.py:105-140 | looking twice at the mock gives the same guard verdict |
| MockRuns.PromptGuardsAreInTime | embodied_skill_ros/models/robot_state.py:87-96 | the guard reads in time when the clock stays within the shortest age limit of an observation |
| RunReplanning.ReplansMakeProgress | embodied_skill_ros/execution/skill_executor.py:283-318 | a skill whose failure led to an adopted replan is never dispatched again, each replan blocks one more registered skill, and there are at most min(max_replans, registered skills) of them |
| RunReplanning.SignatureTestNeverFires | embodied_skill_ros/planner/goal_replanner.py:44-51 | inside a run the equal-signature check never decides: a replan exists exactly when every unmet goal can be synthesised |
| RunReplanning.RepairAvoidsBlocked | embodied_skill_ros/grounding/plan_repairer.py:89-106 | repair never brings in a blocked skill and keeps the blocked set |
| RunDecisions.RefusalExact | embodied_skill_ros/execution/skill_executor.py:182-225 | a refused guard: fresh evidence is acquired, of exactly the fields worth asking for, if flag, policy, budget and backend allow; else the rest of the plan is repaired if flag, policy, budget and report allow and the repair changes it; else the run stops; each with its whole effect on the state |
| RunDecisions.OuterExact | embodied_skill_ros/execution/skill_executor.py:173-226 | every other iteration of the step loop: finished and verified, stopped, or entered with a first attempt |
| RunDecisions.AttemptExact | embodied_skill_ros/execution/skill_executor.py:230-256 | an attempt succeeds exactly when the command was accepted within its timeout and the outcome, if verified, was as predicted; what it records |
| RunDecisions.InnerExact | embodied_skill_ros/execution/skill_executor.py:256-323 | after an attempt: on to the next step, tried again, back to the step loop, replaced or stopped, exactly by verdict, policy, flag, budgets and guard |
| RunDecisions.ReplanExact | embodied_skill_ros/execution/skill_executor.py:283-318 | a proposal is adopted exactly when it grounds, or when its repair does; otherwise the run stops; the looks in between |
| RunPreflight.PreflightExact | embodied_skill_ros/execution/skill_executor.py:113-171 | preflight asks for evidence exactly while its report leaves hope, flag and budget allow and a field is worth asking for, each time for exactly those; then it launches a valid plan as given, launches a repair that is allowed and grounds, and refuses anything else |
| RunPreflight.UndeliverableIsRefused | embodied_skill_ros/execution/skill_executor.py:113-150 | with the capability check on, a plan with a step the backend cannot deliver as declared is refused on the first look, before anything is asked for or sent |
| RunPreflight.CapabilitiesIgnored | embodied_skill_ros/execution/skill_executor.py:120-142 | with it off, nothing of the capabilities matters but what can be refreshed |
| RunGoals.ProjectedGoalsExact | embodied_skill_ros/execution/skill_executor.py:53-69 | a projected goal exists for exactly the fields that some step predicts, with the value the projection ends with; stated goals are kept |
| RunGoals.GoalsMetExact | embodied_skill_ros/execution/skill_executor.py:71-86 | the final check passes exactly when every goal is read present, not stale, without differing reports, and equal, or for a float within a thousandth |
| Transitions.AdvanceKinds | embodied_skill_ros/execution/skill_executor.py:173-333 | each iteration is one of the named outcomes: complete, enter, reobserve, resuffix, progress, retry, reground, replan or stop |
| Transitions.LogKinds | embodied_skill_ros/execution/skill_executor.py:173-333 | beyond the attempt itself an iteration only looks, acquires, or stops at the end |
| RunRecovery.RetriesWithinBudget | embodied_skill_ros/execution/recovery_manager.py:25-39 | in every run attempts are numbered from one and never exceed max_retries + 1, and a call is repeated only directly after it failed, with recovery on, by a skill whose policy allows it |
| ExecutorLoops.SkillExecutor.Execute | embodied_skill_ros/execution/skill_executor.py:113-333 | the nested loops with their local variables follow the state machine, and report exactly when it has ended |
| ExecutorLoops.SkillExecutor.Preflight | embodied_skill_ros/execution/skill_executor.py:118-164 | ground, acquire while evidence is missing, repair once, ground again: the machine's start |
| ExecutorLoops.SkillExecutor.EnterStep | embodied_skill_ros/execution/skill_executor.py:174-226 | validate, refresh, consult the guard: the machine's outer iteration up to the first attempt |
| ExecutorLoops.SkillExecutor.HandleRefusal | embodied_skill_ros/execution/skill_executor.py:185-225 | the code of a refused guard computes the machine's refusal, which `RunDecisions.RefusalExact` pins down |
| ExecutorLoops.SkillExecutor.Attempt | embodied_skill_ros/execution/skill_executor.py:230-256 | command, time out, observe, verify and record are one attempt of the machine |
| ExecutorLoops.SkillExecutor.RunAttempts | embodied_skill_ros/execution/skill_executor.py:226-321 | the attempt loop ends achieved, to be regrounded, with a new plan or stopped, as the machine does |
| ExecutorLoops.SkillExecutor.FindReplan | embodied_skill_ros/execution/skill_executor.py:295-311 | a replanned plan is adopted only if it grounds, or if one repair of it does |
| ExecutorLoops.SkillExecutor.Conclude | embodied_skill_ros/execution/skill_executor.py:324-333 | the final observation decides the report |
| ExecutorLoops.SkillExecutor.MeetsGoals | embodied_skill_ros/execution/skill_executor.py:71-86 | no mismatch exactly when every goal is known and within tolerance or equal |
| ExecutorLoops.StateManager.constructor | embodied_skill_ros/state/state_manager.py:8-11 | the first observation, and the result it reports |
| ExecutorLoops.StateManager.Refresh | embodied_skill_ros/state/state_manager.py:17-21 | one observation, overlaid with the last own result when the backend reports none |
| ExecutorLoops.StateManager.AcquireFields | embodied_skill_ros/state/state_manager.py:23-27 | the same for an acquisition of the named fields |
| ExecutorLoops.StateManager.MarkResult | embodied_skill_ros/state/state_manager.py:29-32 | the result is remembered and written over the current snapshot |
| GrounderSpec.GroundExact | embodied_skill_ros/grounding/plan_grounder.py:39-137 | a plan is valid exactly when ids are distinct, every step is callable, supported, enabled, unobstructed, predictable, observable and as declared along the projection, and steps of a group are pairwise compatible |
| GrounderSpec.CheckableIssuesExact | embodied_skill_ros/grounding/plan_grounder.py:66-108 | a checkable step has no issue exactly when it is grounded at the simulated state |
| GrounderSpec.BackendIssuesExact | embodied_skill_ros/grounding/plan_grounder.py:81-97 | no backend issue exactly when the parameter domains accept, unavoidable effects are covered and every effect is observable |
| GrounderSpec.ResourceIssuesExact | embodied_skill_ros/grounding/constraint_checker.py:36-57 | the accumulating scan of a group finds nothing exactly when its members are pairwise disjoint in resources and compatible |
| GrounderSpec.EffectConflictsExact | embodied_skill_ros/grounding/plan_grounder.py:117-134 | the first-value-wins scan of a group finds nothing exactly when its members' predictions pairwise agree |
| Grounder.PredictableExact | embodied_skill_ros/skills/base_skill.py:107-120 | predicting a step raises exactly for an unknown skill, an open placeholder, a missing operand, or an increment of a present value with something that is no number |
| GrounderStops.RequiresStopExact | embodied_skill_ros/grounding/plan_grounder.py:29-31 | a report requires a stop exactly when a step is duplicated, uncheckable or hopeless, or a group predicts different values; unsatisfied preconditions, busy resources and body conflicts never do |
| GrounderStops.UndeliverableStops | embodied_skill_ros/grounding/plan_grounder.py:50-97 | a step whose skill is not supported, whose argument is outside its domain, or whose effects cannot be observed or are not all declared makes the plan invalid beyond repair |
| Grounder.CheckStepExact | embodied_skill_ros/grounding/constraint_checker.py:19-28 | no violation exactly when there is no emergency stop, no busy resource and no fault: none, an empty text, or a zero or false in its place |
| GrounderIssues.ReportExact | embodied_skill_ros/grounding/plan_grounder.py:66-75 | a report names exactly the unsatisfied preconditions, with their field and what is known of it, and the violated constraints of the checkable steps, each where the step would run |
| GrounderIssues.AskedExactly | embodied_skill_ros/execution/skill_executor.py:96-111 | fresh evidence is asked for exactly the refreshable fields that a step may wait for and that are unknown, stale or contradictory where it would run |
| GrounderIssues.FaultStopsPlans | embodied_skill_ros/grounding/constraint_checker.py:23-24 | any non-empty fault text makes every plan with a step invalid beyond repair |
| GrounderIssues.FaultClosesGuard | embodied_skill_ros/execution/runtime_guard.py:21-24 | and keeps the runtime guard closed for every call |
| GrounderIssues.NoFaultIsNoObstacle | embodied_skill_ros/grounding/constraint_checker.py:19-28 | no fault, or an empty text, is no obstacle to either |
| GrounderLoops.GroundPlan | embodied_skill_ros/grounding/plan_grounder.py:39-137 | the loops compute the report, and it is valid exactly for grounded plans |
| GrounderLoops.CheckSteps | embodied_skill_ros/grounding/plan_grounder.py:41-110 | the sequential loop collects each step's issues against the projection before it |
| GrounderLoops.GroupSteps | embodied_skill_ros/grounding/plan_grounder.py:113-116 | groups hold their members in plan order, named in order of first appearance |
| GrounderLoops.CheckEffects | embodied_skill_ros/grounding/plan_grounder.py:117-134 | effect conflicts of all groups, in order |
| GrounderLoops.CheckGroupEffects | embodied_skill_ros/grounding/plan_grounder.py:118-134 | effect conflicts of one group, skipping steps that cannot be predicted |
| GrounderLoops.CheckParallel | embodied_skill_ros/grounding/constraint_checker.py:30-57 | resource and body conflicts of all groups, in order |
| GrounderLoops.CheckGroup | embodied_skill_ros/grounding/constraint_checker.py:36-57 | resource and body conflicts of one group |
| RepairTheorems.RepairSound | embodied_skill_ros/grounding/plan_repairer.py:77-146 | re-grounding a repaired plan on the same state and clock finds no unsatisfied precondition and no parallel conflict; for any backend it is accepted exactly when ids are distinct and every step is deliverable |
| RepairIds.RepairAccepted | embodied_skill_ros/grounding/plan_repairer.py:89-146 | in terms of the given plan: its repair is accepted exactly when no given id is the id of an inserted step and every step is deliverable; the inserted steps are numbered one after the other |
| RepairIds.PlainIdsAreAccepted | embodied_skill_ros/grounding/plan_repairer.py:114-122 | so when no given id begins like that of a repair, deliverability alone decides |
| RepairTheorems.RepairConservative | embodied_skill_ros/grounding/plan_repairer.py:89-146 | erasing the inserted steps gives the original steps in order with only the group cleared; each inserted step is unblocked, numbered, and attributed by code and field to a precondition of the step it stands before; they are counted; the revision rises by one |
| RepairTheorems.NoStopMeansCheckable | embodied_skill_ros/grounding/plan_repairer.py:87-98 | a report that requires no stop leaves only known, supported, well-argued steps to repair |
| RepairTheorems.GroundedNeverReadsTainted | embodied_skill_ros/grounding/plan_grounder.py:66-71 | no accepted plan has a precondition on a stale or contradictory field |
| RepairTheorems.RepairedNeverReadsTainted | embodied_skill_ros/grounding/plan_repairer.py:94-135 | no repaired plan has one either |
| RepairTheorems.BusyResourceIsNeverRepaired | embodied_skill_ros/grounding/constraint_checker.py:25-27 | a plan with a step that needs a busy resource is never valid, although the issue is marked repairable |
| RepairGoals.RepairedGoals | embodied_skill_ros/grounding/plan_repairer.py:121-143 | projected goals become exactly what the repaired plan's own steps project; stated goals are kept |
| RepairSoundness.SearchSound | embodied_skill_ros/grounding/plan_repairer.py:28-75 | whatever the search returns replays from its start, precondition by precondition, to the state it reports, which satisfies the fact |
| RepairSoundness.InsertAllSound | embodied_skill_ros/grounding/plan_repairer.py:110-127 | the replayed state equals the state the search projected |
| RepairSoundness.RepairStepsSound | embodied_skill_ros/grounding/plan_repairer.py:94-135 | the repaired steps are the originals woven behind inserted blocks, and all of them run |
| RepairBounds.RepairWithinBudget | embodied_skill_ros/grounding/plan_repairer.py:77-128 | in a whole repair expansions stay within the limit, candidates within expansions times registry size, and insertions equal the statistics and the limit |
| RepairBounds.SearchSpends | embodied_skill_ros/grounding/plan_repairer.py:33-50 | one search never exceeds the expansion budget and pays for every candidate it considers |
| SearchShortest.SearchChoosesShortest | embodied_skill_ros/grounding/plan_repairer.py:45-75 | a search that expands answers nothing exactly when no candidate proposes anything, and otherwise with the earliest of the shortest proposals, whatever the counters left to each |
| SearchShortest.AnswerNeedNotBeShortest | embodied_skill_ros/grounding/plan_repairer.py:55-66 | the answer can be longer than a run that establishes the fact |
| RepairerLoops.PlanRepairer.SearchFact | embodied_skill_ros/grounding/plan_repairer.py:28-75 | the recursive search over shared counters computes the specified answer and counters, on a duplicate-free path of depth - 1 facts |
| SearchLimits.UnhitRepairIsFinal | embodied_skill_ros/grounding/plan_repairer.py:33-47 | unless the statistics show a cycle, a depth hit or an expansion hit, a repair comes out the same, found or failed, under all larger depth and expansion limits |
| SearchLimits.RefusalTold | embodied_skill_ros/grounding/plan_repairer.py:31-44 | a search that refuses counts its one reason, once |
| RepairerLoops.PlanRepairer.AchieveAll | embodied_skill_ros/grounding/plan_repairer.py:52-66 | the failed preconditions of a candidate are searched one after the other, each from where the last ended |
| RepairerLoops.PlanRepairer.InsertRepairs | embodied_skill_ros/grounding/plan_repairer.py:111-126 | found steps are renamed, attributed, counted and replayed |
| RepairerLoops.PlanRepairer.MendStep | embodied_skill_ros/grounding/plan_repairer.py:99-128 | every failed precondition of one original step is mended in turn |
| RepairerLoops.PlanRepairer.RepairAll | embodied_skill_ros/grounding/plan_repairer.py:89-135 | the loop over the original steps |
| RepairerLoops.PlanRepairer.RepairPlan | embodied_skill_ros/grounding/plan_repairer.py:77-146 | the repaired plan, and statistics within all three limits whether or not there is one |
| SearchCompleteness.ChainRepair | embodied_skill_ros/grounding/plan_repairer.py:28-146 | for a chain of n unique achievers, each lacking nothing but the next one's fact and the last enabled, repair succeeds exactly when n is within the depth, expansion and insertion limits, and inserts exactly the chain, in dependency order and by name |
| SearchCompleteness.SearchChain | embodied_skill_ros/grounding/plan_repairer.py:33-75 | the search answers a chain exactly when the remaining depth and expansion budget cover it |
| SearchCompleteness.DirectCandidateWins | embodied_skill_ros/grounding/plan_repairer.py:48-75 | a candidate that applies directly always yields a one-step answer, whatever budget its siblings burn |
| SearchCompleteness.ChainsExist | embodied_skill_ros/grounding/plan_repairer.py:28-75 | such chains exist at every length, with and without an age limit |
| Replanner.ReplanAvoidsBlocked | embodied_skill_ros/planner/goal_replanner.py:22-64 | a new plan is callable, uses no blocked skill, differs in signature and keeps the metadata; when the old plan holds a blocked skill the signature check cannot reject |
| ReplanGoals.ReplanServesGoals | embodied_skill_ros/planner/goal_replanner.py:22-43 | the new steps serve the goals in order along their own projection: a goal met by then costs no step, any other exactly the next one, which meets it; a goal that no later step rewrites is met at the end |
| ReplanGoals.NoReplanMeans | embodied_skill_ros/planner/goal_replanner.py:22-51 | without a replan some goal is out of reach of every skill that is not blocked where the goals before it leave off, or the new plan would make the very same calls |
| ReplanGoals.ReplanNamesSteps | embodied_skill_ros/planner/goal_replanner.py:31-38 | new steps are named by revision and place and attributed to the replanner, so no two share an id |
| ReplanGoals.ReplanChangesCalls | embodied_skill_ros/planner/goal_replanner.py:44-51 | a replan never makes the calls of the plan that failed, one by one with equal arguments |
| ReplanGoals.DefaultsAreDecisive | embodied_skill_ros/skills/registry.py:68-72 | the built-in registry meets the condition of both |
| ReplanGoals.UndoingReplanMisses | embodied_skill_ros/planner/goal_replanner.py:31-43 | without that condition a replan can miss its goal |
| ReplanGoals.StepMeetsExactly | embodied_skill_ros/planner/goal_replanner.py:31-43 | in any registry a step's projection meets a goal exactly when the last active effect that writes the field predicts it, or none does and it was met before |
| Replanner.GoalDirectedReplan | embodied_skill_ros/planner/goal_replanner.py:22-64 | the loop over goals computes the specified plan or none, which `ReplanGoals` characterises |
| RobotState.ProjectionNeverLaunders | embodied_skill_ros/models/robot_state.py:56-97 | a stale or contradictory field is never KNOWN after any sequence of projections, at any age limit and clock |
| Values.EqualityExact | embodied_skill_ros/skills/base_skill.py:69-78 | equality as Python has it: an equivalence, numbers by value across bool, int and float, text to the same text only |
| RobotState.EvidenceExpires | embodied_skill_ros/models/robot_state.py:72-97 | an untainted value under an age limit is KNOWN exactly until the limit has passed since its stamp, STALE after, STALE at once with an unreadable stamp; without a limit it does not age |
| RobotState.EpistemicExact | embodied_skill_ros/models/robot_state.py:72-97 | the status of every field: differing reports, no value, marked stale or out of age, in this order |
| RobotState.ProjectionKeepsAge | embodied_skill_ros/models/robot_state.py:56-97 | any other field keeps the age of its old evidence: UNKNOWN without a new value, else KNOWN exactly while its old stamp is within the limit |
| RobotState.MarkedStaysOut | embodied_skill_ros/models/robot_state.py:113-114 | a field marked stale never becomes KNOWN again by projection |
| RobotState.StampedExactly | embodied_skill_ros/models/robot_state.py:99-111 | stamping dates the named fields, or all present ones, and the snapshot; no other date and no value changes |
| RobotState.Copy | embodied_skill_ros/models/robot_state.py:56-70 | changed fields read as changed, all others and all evidence as before |
| Skills.ValidateArguments | embodied_skill_ros/skills/base_skill.py:210-233 | an error exactly for invalid calls, and a named parameter is one that was rejected |
| Skills.VerifiedExactly | embodied_skill_ros/skills/base_skill.py:252-278 | an outcome is verified exactly when every field an active effect writes is read back present, not stale and without differing reports, within the tolerance of the last effect that writes it |
| Skills.VerifyOutcome | embodied_skill_ros/skills/base_skill.py:252-278 | the failures are exactly the predicted fields that are not known or not within tolerance |
| Skills.EffectsDictionary | embodied_skill_ros/skills/base_skill.py:246-250 | the effect dictionary has the keys of the active effects, each owned by the last one that writes it |
| Skills.SynthesisInverts | embodied_skill_ros/skills/base_skill.py:107-149 | synthesised arguments resolve the template to the requested field and predict the requested value, for assignments and increments |
| Skills.SynthesisComplete | embodied_skill_ros/skills/base_skill.py:130-149 | when some dot-free call would predict the target, arguments are synthesised, except for an increment by a literal |
| Skills.ValidCallsResolve | embodied_skill_ros/skills/base_skill.py:107-120 | a valid call of a well-formed contract leaves no placeholder and no operand unresolved |
| Templates.MatchExact | embodied_skill_ros/skills/base_skill.py:122-128 | the matcher succeeds exactly when some non-empty, dot-free binding formats to the field, and returns one |
| Registry.FindCandidates | embodied_skill_ros/skills/registry.py:42-65 | the nested loops give one candidate per skill, in registration order, from its first invertible effect |
| Registry.SynthesisFindsAchievers | embodied_skill_ros/skills/registry.py:32-40 | a step is synthesised exactly when some registered, not excluded skill has an effect that inverts into a valid call |
| Registry.StepIsOfFirst | embodied_skill_ros/skills/registry.py:32-65 | it is a call of the first such skill in registration order |
| Registry.CallIsOfFirst | embodied_skill_ros/skills/registry.py:46-65 | and inverts that skill's first effect that inverts into a valid call |
| Registry.CandidateCallable | embodied_skill_ros/skills/registry.py:46-65 | every candidate is a valid call of a registered skill that is not excluded |
| Registry.SkillRegistry.Register | embodied_skill_ros/skills/registry.py:16-19 | a duplicate is refused without effect, a new skill comes last and every other lookup is unchanged |
| Capability.SemanticReasons | embodied_skill_ros/backends/base_backend.py:36-46 | no reason exactly when every given argument is in its domain and no unavoidable effect is undeclared |
| Capability.AcceptsExact | embodied_skill_ros/backends/base_backend.py:18-26 | a domain accepts exactly the values that are not outside it: among the choices, and a number within the bounds |
| Capability.FirstForExact | embodied_skill_ros/backends/base_backend.py:70-73 | the semantics of a skill are the first registered under its name |
| DefaultSkills.DefaultNames | embodied_skill_ros/skills/registry.py:68-72 | the five built-in contracts are well formed and differently named |
| DefaultSkills.DefaultEffects | embodied_skill_ros/skills/arm_skills.py:6-21 | what each built-in contract predicts, field by field |
| DefaultTables.LiftCalls | embodied_skill_ros/skills/lift_skills.py:8-29 | the valid lift calls: a height, int or float but no bool, of 0 to 780 |
| DefaultTables.MoveCalls | embodied_skill_ros/skills/agv_skills.py:6-34 | the valid base calls: a distance within 5 metres, a speed of 0.01 to 0.5 if any |
| DefaultTables.HeadCalls | embodied_skill_ros/skills/head_skills.py:6-39 | the valid head calls: yaw, pitch or both, each in its range |
| DefaultTables.ArmCalls | embodied_skill_ros/skills/arm_skills.py:6-28 | the valid arm calls: left or right |
| DefaultTables.DefaultParallelExact | embodied_skill_ros/grounding/constraint_checker.py:36-57 | two built-in calls may share a parallel group exactly when one of them, and only one, moves the head |
| MockContracts.LaunchMovesTheMock | embodied_skill_ros/backends/mock_backend.py:152-203 | whatever preflight launches on an undisturbed mock succeeds, and the hidden world passes through the simulated states |
| MockContracts.MockIsFaithful | embodied_skill_ros/backends/mock_backend.py:105-203 | a fault-free mock with clear sensors in an orderly world honours the default contracts for as long as they are respected |
| MockContracts.MockHonoursContracts | embodied_skill_ros/backends/mock_backend.py:168-203 | in an orderly world every met contract is realised exactly and the world stays orderly |
| MockContracts.ContractRealisedExactly | embodied_skill_ros/backends/mock_backend.py:168-203 | a built-in command leaves exactly the declared world if and only if inhibition prevented nothing new and the undeclared writes were nothing new |
| MockContracts.NewMockIsUndisturbed | embodied_skill_ros/backends/mock_backend.py:43-59 | the default initial mock meets those conditions |
| MockArmFirst.ArmGoesFirst | embodied_skill_ros/execution/skill_executor.py:113-333 | moving the base or the lift of any undisturbed mock with one arm out, with the capabilities it reports: preflight retracts that arm first, the run succeeds with exactly those two commands, and in the hidden world the arm is in, the motion at its target and nothing else changed |
| MockArmFirst.ExtendedArmIsOut | embodied_skill_ros/backends/mock_backend.py:43-59 | the instance: the mock's default initial world with either arm extended is such a mock |
| MockDrift.DriftIsRepaired | embodied_skill_ros/execution/skill_executor.py:173-333 | drift: the mock is asked to move base or lift, and the command fails in any mode and leaves an arm out; the retry is refused, the rest of the plan repaired, the run sends exactly motion, retraction, motion and succeeds, and only the field to be changed has changed |
| MockDrift.NewMockDrifts | embodied_skill_ros/backends/mock_backend.py:43-59 | the instance: the default initial world, either arm, either motion, any mode |
| MockSafety.FailedRunRests | embodied_skill_ros/backends/mock_backend.py:152-203 | a launched run that fails leaves the hidden robot at rest: base not moving, no resource busy, all else as before the stop |
| MockSafety.BaseAndLiftStay | embodied_skill_ros/backends/mock_backend.py:168-203 | over any run the hidden base and lift stay where they are unless both arms are safe |
| MockSafety.MotionNeedsSafeArms | embodied_skill_ros/backends/mock_backend.py:168-175 | a motion with an unsafe arm is acknowledged and changes nothing |
| MockArmFirst.PreflightRepairs | embodied_skill_ros/execution/skill_executor.py:118-164 | for every such motion and world the given plan is not grounded but requires no stop, and it is launched as retract, then move exactly when repair is allowed and its limits admit one insertion |
| MockRefresh.RefreshThenLaunch | embodied_skill_ros/execution/skill_executor.py:118-142 | a motion whose readiness is hidden and fails to refresh r times: preflight asks for it alone, exactly r + 1 times, and launches, if active observation is on with a larger budget; otherwise it asks as often as it may and refuses |
| MockArmFirst.SearchRetracts | embodied_skill_ros/grounding/plan_repairer.py:28-75 | over the default registry the search for a safe arm returns exactly one `retract_arm` of that arm, exactly when a level and an expansion are left |
| MockArmFirst.ArmChainIsChain | embodied_skill_ros/skills/arm_skills.py:6-28 | the default contracts form such a chain, with their age limits, several preconditions and several effects |
| MockArmFirst.OnlyRetract | embodied_skill_ros/skills/registry.py:42-65 | of all built-in effects only that of `retract_arm` inverts to a safe arm |
| MockTruth.NoFalseSuccess | embodied_skill_ros/backends/mock_backend.py:105-140 | whatever is hidden, stale, contradictory or faulty, a verified success means every goal that is not overridden and not the executor's own result holds in the hidden world within 1e-3 |
| MockTruth.SuccessIsObserved | embodied_skill_ros/execution/skill_executor.py:324-333 | against any backend a verified success ends with an observation in which every goal is known and met |
| MockTruth.OracleConfirms | embodied_skill_ros/evaluation/oracle.py:26-38 | after a verified success the oracle, asked about audited goals at any tolerance, disagrees exactly when a float goal is missed by more than that tolerance and at most the report's |
| MockTruth.DeceptionExact | embodied_skill_ros/backends/mock_backend.py:105-140 | a success report can be false about a field if and only if the field is overridden with a value or is the executor's own result, its reports are not contradictory and it is not stale for good; a new executor with an empty log suffices |
| MockTruth.DeceivedOnlyIfDeceivable | embodied_skill_ros/execution/skill_executor.py:324-333 | the only-if half, for every run, configuration and hidden state |
| MockTruth.OracleIsFiner | embodied_skill_ros/evaluation/oracle.py:23-38 | for every field, target and true value the report succeeds exactly within 1e-3, and then the default oracle agrees exactly within 1e-6 |
| MockSensing.EvidenceExact | embodied_skill_ros/backends/mock_backend.py:105-140 | value and status of every observed field, from overrides, hiding, staleness, contradictions and age |
| MockSensing.AcquisitionReveals | embodied_skill_ros/backends/mock_backend.py:110-145 | a refreshable field becomes available with the first acquisition beyond its configured failures, and no other field ever does |
| MockRetry.ExactRetry | embodied_skill_ros/backends/mock_backend.py:152-166 | for any registry and sensors, k queued drift-free faults and a call that would be verified and meet the goals without them: success after exactly k + 1 commands if k <= max_retries, a stop after exactly max_retries + 1 otherwise |
| MockDefaultRetry.DefaultRetry | embodied_skill_ros/backends/mock_backend.py:152-203 | the same, with nothing assumed of the fault-free command, for every call of a built-in skill that preflight accepts as it is, in every orderly world seen by clear sensors that does not show the effect yet, with projected goals or stated ones within reach |
| MockDefaultRetry.LiftRetries | embodied_skill_ros/skills/lift_skills.py:8-29 | the instance for the lift of the new mock: every fault mode, every k, every target out of tolerance |
| MockBackend.MockRobotBackend.SendCommand | embodied_skill_ros/backends/mock_backend.py:152-203 | queued faults strike first, then a permanent one, then the transition; the call is logged |
| MockFaults.FaultsStrikeInOrder | embodied_skill_ros/backends/mock_backend.py:152-166 | injected faults strike in order, one per command of their skill, whatever else is sent; then a permanent fault every time, or none |
| MockFaults.FaultsAnswer | embodied_skill_ros/backends/mock_backend.py:152-166 | what each fault mode answers, and that a fault leaves exactly its drift and spends itself |
| MockFaults.UnverifiedFaultsPass | embodied_skill_ros/execution/skill_executor.py:230-245 | without outcome verification exactly the physical failures and drifts pass for successes |
| MockFaults.SupportsExactly | embodied_skill_ros/backends/mock_backend.py:61-83 | the reported capabilities support exactly the skills whose fault-free commands are acknowledged; any other changes nothing |
| MockFaults.HandlersAct | embodied_skill_ros/backends/mock_backend.py:168-178 | a registered handler makes its changes and no others, and even then the two motions need safe arms |
| MockContracts.ReportedAdmitsExactly | embodied_skill_ros/backends/mock_backend.py:61-83 | the reported capabilities admit a built-in call exactly when none of its effects is on a field hidden for good |
| MockBackend.MockRobotBackend.AcquireFields | embodied_skill_ros/backends/mock_backend.py:142-145 | each named field is tried once more, then observed |
| MockBackend.EvaluateOracle | embodied_skill_ros/evaluation/oracle.py:26-38 | success exactly when every expected field agrees with the hidden world, and the mismatches are exactly the others |
| AgvBarrier.QueriesSeeFreshSamples | embodied_skill_ros/integrations/jaka_kargo/ros2_transport.py:127-256 | in every interleaving each query that returns after an accepted navigation uses odometry and motion samples both received after it sampled its counters |
| AgvBarrier.QueryAnsweredExactly | embodied_skill_ros/integrations/jaka_kargo/ros2_transport.py:225-256 | in every run a waiting query returns exactly when both topics were heard and, while a navigation is pending, at least one message of each came in since it sampled its counters; it returns the last of each |
| AgvBarrier.NavigationNeedsOdometry | embodied_skill_ros/integrations/jaka_kargo/ros2_transport.py:361-366 | in every run a navigation gets under way exactly when odometry has been heard, with the counters reached |
| AgvBarrier.OneOfEachSuffices | embodied_skill_ros/integrations/jaka_kargo/ros2_transport.py:229-237 | after an accepted navigation one message of each, in either order, is enough, and one alone is not |
| AgvBarrier.BarrierStaysArmed | embodied_skill_ros/integrations/jaka_kargo/ros2_transport.py:225-256 | receptions, timed-out queries and navigations that are not accepted leave the barrier as it is |
| AgvBarrier.OnlyAcceptanceGuards | embodied_skill_ros/integrations/jaka_kargo/ros2_transport.py:389-406 | in every monitor the first query after a navigation returns a sample from before it exactly when the answer was not acceptance and no earlier barrier holds it back |
| AgvBarrier.UnguardedNavigationReturnsOldSample | embodied_skill_ros/integrations/jaka_kargo/ros2_transport.py:389-406 | such a monitor is reached, for a rejected and for a timed-out answer |
| AgvBarrier.AgvTransport.OnOdom | embodied_skill_ros/integrations/jaka_kargo/ros2_transport.py:127-132 | the odometry receiver is one action of the monitor |
| AgvBarrier.AgvTransport.OnMotion | embodied_skill_ros/integrations/jaka_kargo/ros2_transport.py:134-139 | so is the motion receiver |
| AgvBarrier.AgvTransport.NavigationStarts | embodied_skill_ros/integrations/jaka_kargo/ros2_transport.py:361-364 | navigation goes on only if there is odometry |
| AgvBarrier.AgvTransport.CountersBefore | embodied_skill_ros/integrations/jaka_kargo/ros2_transport.py:365-366 | it samples both counters in a critical section of its own |
| AgvBarrier.AgvTransport.NavigationAnswered | embodied_skill_ros/integrations/jaka_kargo/ros2_transport.py:389-406 | only an accepted navigation arms the barrier, one past the sampled counters |
| AgvBarrier.AgvTransport.StartQuery | embodied_skill_ros/integrations/jaka_kargo/ros2_transport.py:225-228 | a query reads the barrier once |
| AgvBarrier.AgvTransport.CheckQuery | embodied_skill_ros/integrations/jaka_kargo/ros2_transport.py:229-255 | a pass of the wait loop returns the latest samples and clears the barrier, or goes on waiting |
| AgvBarrier.AgvTransport.QueryExpires | embodied_skill_ros/integrations/jaka_kargo/ros2_transport.py:238-246 | a query whose deadline passes raises and leaves the barrier |
| Ros2Cache.CacheHoldsLastMaximal | embodied_skill_ros/ros2/ros2_backend.py:172-192 | the cache holds the last received of the samples of maximal sequence, whatever the order of arrival |
| Ros2Cache.PostCommandObservationIsNew | embodied_skill_ros/ros2/ros2_backend.py:267-329 | in every interleaving of the receiver and one client, the first observation after a completed command is late exactly when nothing newer had arrived when its wait ended; whenever something newer is in when the cache is read - always unless late, and even then if it came in before the second look - it returns a sample received after the command began; so does a refresh that does not fall back |
| Ros2Cache.ExceededIsSeen | embodied_skill_ros/ros2/ros2_backend.py:187-191 | comparing sequence numbers decides exactly whether a newer sample has arrived, however samples were reordered |
| Ros2Cache.OnlyCompletionRequires | embodied_skill_ros/ros2/ros2_backend.py:335-432 | a command that reached its result makes the next observation wait for something newer than its beginning; one that did not leaves everything as it was |
| Ros2Cache.GivesUpExactly | embodied_skill_ros/ros2/ros2_backend.py:267-277 | in every reachable monitor the wait after a command is given up exactly when nothing newer has arrived |
| Ros2Cache.WakesExactly | embodied_skill_ros/ros2/ros2_backend.py:267-277 | a wait after a command or of a refresh ends exactly when something newer than its beginning is in, with what is cached then |
| Ros2Cache.FallsBackExactly | embodied_skill_ros/ros2/ros2_backend.py:326-329 | an expired refresh observes instead: at once, or waiting for what is still required or for a first sample |
| Ros2Cache.LateObservationForgets | embodied_skill_ros/ros2/ros2_backend.py:291-312 | having given up, the client reads the cache again: an empty one raises; otherwise it returns what is there, marked late, forgets what it was waiting for, and the next observation returns the same at once, unmarked; that is newer than the command exactly if something newer came in meanwhile |
| Ros2Cache.OldAndLateReadings | embodied_skill_ros/ros2/ros2_backend.py:291-312 | both are reached: an old sample returned late, and a new one that came in between giving up and reading again |
| Ros2Cache.FirstWaitSkipsZero | embodied_skill_ros/ros2/ros2_backend.py:310-312 | the very first wait is ended exactly by a sequence above zero; a sample numbered zero is cached but does not prevent the timeout |
| Ros2Cache.ZeroIsSkipped | embodied_skill_ros/ros2/ros2_backend.py:310-312 | and such a wait is reached |
| Ros2Cache.ObservationCache.ReceiveState | embodied_skill_ros/ros2/ros2_backend.py:187-191 | a reception is one action of the monitor |
| Ros2Cache.ObservationCache.CommandBegins | embodied_skill_ros/ros2/ros2_backend.py:338-340 | a command notes the sequence reached when it begins |
| Ros2Cache.ObservationCache.CommandEnds | embodied_skill_ros/ros2/ros2_backend.py:340-432 | that sequence becomes the requirement exactly if the command reached a terminal result |
| Ros2Cache.ObservationCache.ObserveStarts | embodied_skill_ros/ros2/ros2_backend.py:291-312 | an observation returns the cache at once exactly when nothing is required and something is cached, and waits otherwise |
| Ros2Cache.ObservationCache.CheckWait | embodied_skill_ros/ros2/ros2_backend.py:267-277 | a pass of the wait loop returns the cached sample when it is newer, and an observation then drops its requirement |
| Ros2Cache.ObservationCache.RefreshStarts | embodied_skill_ros/ros2/ros2_backend.py:314-325 | a refresh waits for more than is there |
| Ros2Cache.ObservationCache.WaitExpires | embodied_skill_ros/ros2/ros2_backend.py:267-277 | at the deadline the first observation raises, and the other waits let the lock go to read again |
| Ros2Cache.ObservationCache.ReadAgain | embodied_skill_ros/ros2/ros2_backend.py:300-308 | after an expired wait for a command the second look returns what is cached by then, or raises, and drops the requirement |
| Ros2Cache.ObservationCache.FallBack | embodied_skill_ros/ros2/ros2_backend.py:326-329 | after an expired wait of a refresh it observes instead, at once or by waiting |

## Left out

- ExecutorLoops.SkillExecutor.Execute: the method runs at most `turns` loop iterations, because a run need not end; the theorems about `Executor.After` have no such bound.
- Registry.FindCandidates: a template is taken as a list of pieces; parsing `{name}` and brace escapes is not modelled, and a placeholder filled by an argument that is not text counts as unresolvable.
- Recovery reasons, and the `timed_out` flag of a recovery decision, which only choose message texts.
- Waiting in the transports is a condition checked again after each reception; that a woken thread checks soon enough is not modelled. `configure_scenario` and `cancel_current_goal` of the ROS2 backend are not modelled.
- RunTermination.ConfigurationDecidesTermination: with preflight grounding on, one call that may be retried must have effects with values on a state on which the guard lets it through (`AssignmentsAreForeseen` says when that is automatic); otherwise such a call can enter a run only by a repair during it.
- RunAdequacy.GroundedPlanExecutes: stated goals must hold where the simulation ends (projected goals always do), and no effect may raise while it is evaluated (`GroundedIsPredictable` says when that is automatic); the source's grounder raises in that case instead of reporting.
- RunLaunch.LaunchMeansSuccess: the same assumption about raising effects.
- RepairTheorems.RepairSound: the clock is one constant within a repair, as it is within a grounding; the source reads it for every precondition.
- RepairIds.RepairAccepted: the same constant clock.
- ReplanGoals.ReplanServesGoals: what a call predicts for a field must be settled by one effect that is active whenever it is chosen, as in the built-in registry; `UndoingReplanMisses` shows what happens otherwise.
- MockDrift.DriftIsRepaired: one command fails, and the drift is the arm; other drifts are covered iteration by iteration (`RunDecisions`) but not as one run.
- MockDefaultRetry.DefaultRetry: the effect must not show before the first command; where it does, a fault that acknowledges the command already counts as success.
- Floating point: floats are reals, so rounding, NaN and infinities do not occur.
- Values other than bool, int, float and text, and goal targets that are `None`.
- Exceptions from a text value used as a number: a text operand of an increment makes the effect unpredictable, a text argument of a numeric backend domain is rejected; the source raises in both places (or parses a numeral).
- Bookkeeping containers of a snapshot as effect fields or mock changes, and metadata other than goals, their origin and blocked skills.
- Exceptions thrown by the backend, by a replanner or by mock handlers, and mock commands with missing arguments.
- Timestamps are numbers or unreadable; parsing ISO text and time zones is not modelled. Capabilities are read once per run, as the executor does; a fact of the mock's world that is present with the value `None` is not distinguished from an absent one.
- Messages, trace records beyond the decision list, and report texts.
- Argument checks of constructors (negative limits, unknown fault modes and operations).
- The planners and the LLM adapter, which turn text into plans.
- The JAKA/Kargo backend, adapter, mapper and configuration: flat mappings over the modelled interface.
- ROS nodes, executors, futures, services, parameters, JSON encoding and process wrappers; only the counters and conditions of the two barriers are modelled.
- Fake and stub ROS nodes, benchmarks, metrics, validation scripts and stored result files.
