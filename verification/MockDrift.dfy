/** The closed loop when the world drifts: a motion fails and leaves an arm out. The retry is
    refused, the rest of the plan is grounded again and repaired, and the motion follows the arm. */
module MockDrift {
  import opened Values
  import opened RobotState
  import opened Templates
  import opened Skills
  import opened Registry
  import opened DefaultSkills
  import opened Capability
  import opened Grounder
  import opened GrounderSpec
  import opened GrounderIssues
  import opened Repairer
  import opened SearchCompleteness
  import opened Executor
  import opened Transitions
  import opened RunAdequacy
  import opened RunDecisions
  import opened MockBackend
  import opened MockMotion
  import opened MockContracts
  import opened MockTruth
  import opened MockRetry
  import opened MockArmFirst
  import opened MockDefaultRetry

  // ---- What the guard says ------------------------------------------------------------------------

  lemma GuardLetsMotion(j: Job, s: State, now: real)
    requires Motion(j) && Seen(s, now) && ArmsIn(j, s)
    ensures GuardAllows(j.Contract(), j.step, s, now)
  {
    hide Seen, Motion, PreconditionsHold;
    MotionHolds(j, s, now);
    CheckStepExact(j.step.id, j.Contract(), s);
  }

  lemma GuardStopsMotion(j: Job, s: State, now: real)
    requires Motion(j) && Seen(s, now) && ArmOut(j, s)
    ensures !GuardAllows(j.Contract(), j.step, s, now)
  {
    hide Seen, Motion, ArmOut, Evaluate;
    MotionEvaluations(j, s, now);
    var evals := EvaluatePreconditions(j.Contract(), s, j.step.arguments, now);
    assert j.Contract().preconditions[j.OwnArm()] in j.Contract().preconditions;
    assert !evals[j.OwnArm()].Satisfied();
  }

  lemma GuardLetsRetract(j: Job, step: Step, s: State, now: real)
    requires Motion(j) && Seen(s, now) && ArmOut(j, s) && SameCall(step, Retract(j))
    ensures GuardAllows(RETRACT_ARM, step, s, now)
  {
    hide Seen, Motion, PreconditionsHold, Lookup;
    DefaultLookup("retract_arm");
    RetractHolds(j, s, now);
    CheckStepExact(step.id, RETRACT_ARM, s);
  }

  // ---- A step that goes through ------------------------------------------------------------------------

  /** A run on the mock, at a loop head: the hidden state there. */
  datatype Stage = Stage(config: Config, flags: Flags, sensors: Sensors, semantics: seq<Semantics>, m: Hidden,
                         timing: Timing)
  {
    function Machine(): Setup { ReportingMock(config, flags, sensors, semantics, m, timing) }

    function Now(log: Log): Hidden { HiddenAfter(sensors, m, log) }
  }

  ghost predicate Clean(b: Stage) {
    && Clear(b.sensors) && Prompted(b.timing) && b.m.world.observedAt == map[]
    && forall sem :: sem in b.semantics ==> !Knows(DEFAULTS, sem.skill)
  }

  lemma StageLook(b: Stage, c: Control, reading: Reading)
    requires Clean(b) && b.Now(c.log).world.observedAt == map[]
    ensures var x := b.Machine();
            var s := Look(x, c);
            && Seen(s, x.backend.clock(c.log + [Observed(s)], reading))
            && s.active == b.Now(c.log).world.active
            && (forall k :: k != LAST_RESULT ==> Raw(s, k) == Raw(b.Now(c.log).world, k))
            && b.Now(c.log + [Observed(s)]) == b.Now(c.log)
  {
    hide Observe, Clear, HiddenAfter;
    LookShows(b.sensors, b.Now(c.log), b.timing, c.log, c.last, reading);
    HiddenOne(b.sensors, b.m, c.log, Observed(Look(b.Machine(), c)));
  }

  /** What is seen of a world with clear sensors mirrors it. */
  lemma StageMirrors(b: Stage, log: Log, last: Option<string>)
    requires Clean(b) && b.Now(log).world.observedAt == map[]
    ensures Mirrors(b.Now(log).world, Overlay(b.Machine().backend.observe(log), last))
  {
    hide Observe, HiddenAfter, Overlay;
    ClearLook(b.sensors, b.Now(log), At(b.timing.stamp(log)));
    OverlayMirrors(b.Now(log).world, Observe(b.sensors, b.Now(log), At(b.timing.stamp(log))), last);
  }

  /** The guard's conditions are met where the step stands, and so is its contract. */
  ghost predicate Ready(b: Stage, c: Control) {
    && c.mode.Outer? && c.index < |c.plan.steps| && Callable(DEFAULTS, c.plan.steps[c.index])
    && var step := c.plan.steps[c.index];
       var sk := Lookup(DEFAULTS, step.skill).value;
       var s := Look(b.Machine(), c);
       && GuardAllows(sk, step, s, b.timing.clock(c.log + [Observed(s)], ForGuard))
       && Undisturbed(b.Now(c.log)) && ContractMet(DEFAULTS, b.Now(c.log).world, step.skill, step.arguments)
  }

  lemma SendsCleanly(b: Stage, c: Control)
    requires Clean(b) && c.mode.Inner? && Lookup(DEFAULTS, c.mode.step.skill) == Some(c.mode.skill)
    requires Undisturbed(b.Now(c.log))
    requires ContractMet(DEFAULTS, b.Now(c.log).world, c.mode.skill.name, c.mode.step.arguments)
    ensures var x := b.Machine();
            && Answer(x, c).accepted && Answer(x, c).elapsed <= c.mode.skill.timeout
            && InStep(b.Now(Sending(x, c)), Declared(b.Now(c.log).world, c.mode.skill.name, c.mode.step.arguments))
  {
    hide Command, HiddenAfter, ContractMet, Undisturbed, Clear, ValidArgs, Lookup;
    var x := b.Machine();
    CommandInStep(b.sensors, b.Now(c.log), c.mode.skill.name, c.mode.step.arguments);
    HiddenOne(b.sensors, b.m, c.log, Commanded(c.mode.skill.name, c.mode.step.arguments, Answer(x, c)));
    LimitOf(c.mode.skill);
    assert b.timing.elapsed(c.log) <= 10.0;
  }

  lemma SucceedsCleanly(b: Stage, c: Control)
    requires Clean(b) && c.mode.Inner? && Lookup(DEFAULTS, c.mode.step.skill) == Some(c.mode.skill)
    requires Undisturbed(b.Now(c.log)) && Mirrors(b.Now(c.log).world, c.mode.before)
    requires ContractMet(DEFAULTS, b.Now(c.log).world, c.mode.skill.name, c.mode.step.arguments)
    ensures RunDecisions.Succeeds(b.Machine(), c)
  {
    hide Command, HiddenAfter, Undisturbed, Clear, ValidArgs, Lookup, OutcomeVerified, ExpectedEffects, Mirrors,
         WellFormed, Observe, Orderly;
    var x := b.Machine();
    var world, sk, args := b.Now(c.log).world, c.mode.skill, c.mode.step.arguments;
    SendsCleanly(b, c);
    assert world.observedAt == map[] by { UndisturbedStamps(b.Now(c.log)); }
    var next := Declared(world, sk.name, args);
    assert next == Copy(world, ExpectedEffects(sk, args, world));
    UndisturbedStamps(b.Now(Sending(x, c)));
    StageMirrors(b, Sending(x, c), c.last);
    KnowsMoreOf(world, c.mode.before);
    MirroredEffects(sk, args, world, c.mode.before);
    EffectsAreForeseen(sk, Step("", sk.name, args, [], None, None), world);
    PredictedIsVerified(sk, args, c.mode.before, world, RunDecisions.Outcome(x, c));
  }

  lemma UndisturbedStamps(h: Hidden)
    requires Undisturbed(h)
    ensures h.world.observedAt == map[]
  {
  }

  lemma KnowsMoreOf(a: State, b: State)
    requires Mirrors(a, b)
    ensures KnowsMore(a, b)
  {
  }

  /** From the step loop to the attempt loop. */
  lemma EntersReady(b: Stage, c: Control)
    requires Clean(b) && Ready(b, c)
    ensures var x := b.Machine();
            var step := c.plan.steps[c.index];
            var d := Advance(x, c);
            && d == c.(log := Watching(x, c), mode := d.mode)
            && d.mode == Inner(step, Lookup(DEFAULTS, step.skill).value, Look(x, c), 1)
            && b.Now(d.log) == b.Now(c.log) && Mirrors(b.Now(c.log).world, d.mode.before)
  {
    hide GuardAllows, HiddenAfter, Clear, ValidArgs, Lookup, Observe, Mirrors, ContractMet, Undisturbed, Advance;
    UndisturbedStamps(b.Now(c.log));
    OuterExact(b.Machine(), c);
    StageMirrors(b, c.log, c.last);
    StageLook(b, c, ForGuard);
  }

  /** Such a step is done two iterations later: sent once, and the hidden world is the declared
      one. */
  lemma StepGoesThrough(b: Stage, c: Control)
    requires Clean(b) && Ready(b, c)
    ensures var x := b.Machine();
            var step := c.plan.steps[c.index];
            var d := Advance(x, Advance(x, c));
            && d.mode.Outer? && d.index == c.index + 1 && d.plan == c.plan && d.decisions == c.decisions
            && |d.results| == |c.results| + 1
            && Sent(0, d.log) == Sent(0, c.log) + [(step.skill, step.arguments)]
            && InStep(b.Now(d.log), Declared(b.Now(c.log).world, step.skill, step.arguments))
  {
    hide GuardAllows, HiddenAfter, Clear, ValidArgs, Lookup, Observe, Mirrors, ContractMet, Undisturbed, Advance,
         RunDecisions.Succeeds, Ready, Declared, Sent, Sending, Answer, RunDecisions.Outcome, Copy;
    var x := b.Machine();
    ReadyContract(b, c);
    var step := c.plan.steps[c.index];
    EntersReady(b, c);
    var c1 := Advance(x, c);
    SucceedsCleanly(b, c1);
    SendsCleanly(b, c1);
    InnerExact(x, c1);
    AttemptExact(x, c1);
    var e := Attempted(x, c1);
    HiddenOne(b.sensors, b.m, Sending(x, c1), Observed(RunDecisions.Outcome(x, c1)));
    AttemptSent(x, c, c1);
  }

  lemma ReadyContract(b: Stage, c: Control)
    requires Ready(b, c)
    ensures c.index < |c.plan.steps|
    ensures var step := c.plan.steps[c.index];
            && Lookup(DEFAULTS, step.skill).Some? && Lookup(DEFAULTS, step.skill).value.name == step.skill
            && Undisturbed(b.Now(c.log)) && ContractMet(DEFAULTS, b.Now(c.log).world, step.skill, step.arguments)
  {
  }

  lemma AttemptSent(x: Setup, c: Control, d: Control)
    requires d.mode.Inner? && d.log == Watching(x, c)
    ensures Sent(0, Attempted(x, d).log) == Sent(0, c.log) + [(d.mode.skill.name, d.mode.step.arguments)]
  {
    AttemptExact(x, d);
    SentOne(0, c.log, Observed(Look(x, c)));
    SentOne(0, d.log, Commanded(d.mode.skill.name, d.mode.step.arguments, Answer(x, d)));
    SentOne(0, Sending(x, d), Observed(RunDecisions.Outcome(x, d)));
  }

  // ---- The drift --------------------------------------------------------------------------------------------

  function ArmDrops(j: Job): Changes { map[j.Safe() := Some(Bool(false))] }

  /** Both arms are in and nothing is wrong but this: the next command of the motion fails in
      some way, and leaves the arm out. The motion has somewhere to go. */
  predicate Drifting(j: Job, m: Hidden, mode: FaultMode) {
    && Motion(j) && Orderly(m.world) && m.world.observedAt == map[] && ArmsIn(j, m.world)
    && m.permanent == map[] && m.faults == map[j.step.skill := [Fault(mode, ArmDrops(j))]]
    && j.Target(m.world).Some? && !Within(Raw(m.world, j.Field()), j.Target(m.world).value, 0.001)
  }

  /** What the executor may do: verify, guard, retry once, repair with one insertion. */
  predicate Recovering(config: Config, flags: Flags) {
    && flags.verifyOutcomes && flags.runtimeGuard && flags.allowRecovery && flags.allowRepair
    && config.maxRetries >= 1 && WithinLimits(config.limits, 1)
  }

  /** The hidden state after the failed command. */
  function Dropped(j: Job, m: Hidden): Hidden {
    m.(world := Copy(m.world, ArmDrops(j)), faults := map[j.step.skill := []])
  }

  lemma DroppedIsOut(j: Job, m: Hidden, mode: FaultMode)
    requires Drifting(j, m, mode)
    ensures Undisturbed(Dropped(j, m)) && ArmOut(j, Dropped(j, m).world)
    ensures forall k :: k != j.Safe() ==> Raw(Dropped(j, m).world, k) == Raw(m.world, k)
  {
    hide Copy, ValidArgs, Within, Job.Target;
    ArmNames(j);
    var w := Dropped(j, m).world;
    assert forall k :: Raw(w, k) == if k in ArmDrops(j) then ArmDrops(j)[k] else Raw(m.world, k);
    assert Raw(w, j.Safe()) == Some(Bool(false));
    assert MOVING != j.Safe() && POSITION != j.Safe();
  }

  lemma FaultDrops(sensors: Sensors, j: Job, m: Hidden, mode: FaultMode)
    requires Drifting(j, m, mode)
    ensures Command(sensors, m, j.step.skill, j.step.arguments).2 == Dropped(j, m)
  {
    hide Transition, Motion, Orderly, ArmsIn, Within, Job.Target;
    assert m.faults[j.step.skill][1..] == [];
    assert PopFault(m, j.step.skill).faults == map[j.step.skill := []];
  }

  // ---- The run ----------------------------------------------------------------------------------------------

  /** Goals that the motion reaches. */
  predicate GoalOnly(j: Job, w: State, plan: Plan) {
    && plan.metadata.blocked == {} && plan.metadata.goals.Some? && j.Target(w).Some?
    && forall g :: g in plan.metadata.goals.value ==> g == (j.Field(), j.Target(w).value)
  }

  lemma GoalIsTheTarget(j: Job, w: State, s: State)
    requires Motion(j) && j.Target(w).Some? && j.Target(s) == j.Target(w)
    ensures var plan := WithGoalState(DEFAULTS, JobPlan(j), s);
            GoalOnly(j, w, plan) && plan.steps == [j.step]
  {
    hide ValidArgs, Lookup, ExpectedEffects, Predictable, Project, Job.Target;
    var steps: seq<Step>, none: Goals := JobPlan(j).steps, [];
    var target := j.Target(s);
    JobCallable(j);
    JobEffects(j, s);
    JobKeys(j, s);
    var effects: Changes := map[j.Field() := target];
    UpdateOne(j.Field(), target.value);
    assert StepGoals(DEFAULTS, none, steps[0], s) == [(j.Field(), target.value)];
    assert steps[1..] == [];
    assert GoalFold(DEFAULTS, steps, s, none) ==
           if Predictable(DEFAULTS, steps[0], s) then StepGoals(DEFAULTS, none, steps[0], s) else none;
  }

  lemma JobKeys(j: Job, s: State)
    requires Motion(j)
    ensures EffectKeys(j.Contract(), j.step.arguments) == [j.Field()]
  {
    hide ValidArgs;
    LiteralFormat(LIFT, j.step.arguments);
    LiteralFormat(POSITION, j.step.arguments);
    assert KeysOf([], j.step.arguments) == [];
    assert j.Contract().effects[..0] == [];
  }

  lemma UpdateOne(field: string, value: Value)
    ensures UpdateGoals([], [field], map[field := Some(value)]) == [(field, value)]
  {
    var effects: Changes, keys, empty: Goals := map[field := Some(value)], [field], [];
    assert PutGoal(empty, field, value) == [(field, value)];
    assert keys[0] == field && keys[1..] == [] && effects[field] == Some(value);
    assert UpdateGoals(empty, keys, effects) == UpdateGoals([(field, value)], keys[1..], effects);
  }

  /** The plan grounds on the first look, with the motion's target as its goal. */
  lemma DriftGrounds(b: Stage, j: Job, mode: FaultMode)
    requires Clean(b) && Drifting(j, b.m, mode)
    ensures var x := b.Machine();
            var s := Overlay(x.backend.observe([]), None);
            var plan := WithGoalState(DEFAULTS, JobPlan(j), s);
            && Ground(DEFAULTS, x.Caps(), x.backend.clock([Observed(s)], ForGround), plan, s).valid
            && GoalOnly(j, b.m.world, plan) && plan.steps == [j.step] && b.Now([Observed(s)]) == b.m
  {
    hide Clear, Ground, Within, Job.Target, HiddenAfter, Orderly, Permissive, Reported, Seen, Observe, GoalOnly,
         ArmsIn, Motion, WithGoalState, Overlay;
    var x := b.Machine();
    var none: Log := [];
    var first := Begin(JobPlan(j), none, None);
    var s := Look(x, first);
    assert b.Now(none) == b.m by { NoEvents(b.sensors, b.m); }
    StageLook(b, first, ForGround);
    SameForMotion(j, b.m.world, s);
    StageIsPermissive(b, j);
    FieldIsNotResult(j);
    TargetStays(j, b.m.world, s);
    GoalIsTheTarget(j, b.m.world, s);
    assert none + [Observed(s)] == [Observed(s)];
    var plan := WithGoalState(DEFAULTS, JobPlan(j), s);
    MotionPlanGrounds(x.Caps(), x.backend.clock([Observed(s)], ForGround), plan, j, s);
  }

  /** The run up to its launch: as given, on one look. */
  lemma DriftLaunches(b: Stage, j: Job, mode: FaultMode)
    requires Clean(b) && Drifting(j, b.m, mode)
    ensures var x := b.Machine();
            var c := Start(x, JobPlan(j), [], None);
            && c.mode.Outer? && c.index == 0 && c.results == [] && c.runtimeRepairs == 0
            && c.plan.steps == [j.step] && GoalOnly(j, b.m.world, c.plan)
            && Sent(0, c.log) == [] && b.Now(c.log) == b.m && c.decisions == [EXECUTE]
  {
    hide Clean, Drifting, Ground, HiddenAfter, GoalOnly, WithGoalState, Overlay, Start;
    var x := b.Machine();
    var s := Overlay(x.backend.observe([]), None);
    var none: Log := [];
    DriftGrounds(b, j, mode);
    LaunchOnce(x, JobPlan(j), None);
    SentOne(0, none, Observed(s));
    assert none + [Observed(s)] == [Observed(s)];
    LaunchedDecisions(x, JobPlan(j), None);
  }

  lemma StageIsPermissive(b: Stage, j: Job)
    requires Clean(b) && Motion(j)
    ensures Permissive(j, b.Machine().Caps())
  {
    hide Clear, Motion, Reported;
    ReportedIsPermissive(j, b.sensors, b.semantics, b.m);
  }

  lemma NoEvents(sensors: Sensors, m: Hidden)
    ensures HiddenAfter(sensors, m, []) == m
  {
  }

  lemma FieldIsNotResult(j: Job)
    ensures j.Field() != LAST_RESULT
  {
  }

  lemma LaunchedDecisions(x: Setup, plan: Plan, last: Option<string>)
    requires var s := Overlay(x.backend.observe([]), last);
             Ground(x.Reg(), x.Caps(), x.backend.clock([Observed(s)], ForGround),
                    WithGoalState(x.Reg(), plan, s), s).valid
    ensures Start(x, plan, [], last).decisions == [EXECUTE] && Start(x, plan, [], last).runtimeRepairs == 0
  {
    hide Ground, WithGoalState;
    var s := Overlay(x.backend.observe([]), last);
    assert [] + [Observed(s)] == [Observed(s)];
  }

  /** The first command fails and drops the arm; the guard refuses to try again. */
  lemma DriftRegrounds(b: Stage, j: Job, mode: FaultMode, c: Control)
    requires Clean(b) && Drifting(j, b.m, mode) && Recovering(b.config, b.flags)
    requires c.mode.Outer? && c.index == 0 && c.plan.steps == [j.step] && b.Now(c.log) == b.m
    ensures var x := b.Machine();
            var d := Advance(x, Advance(x, c));
            && d.mode.Outer? && d.index == 0 && d.plan == c.plan && |d.results| == |c.results| + 1
            && d.runtimeRepairs == c.runtimeRepairs && d.decisions == c.decisions + [LOCAL_RETRY] + [REGROUND]
            && Sent(0, d.log) == Sent(0, c.log) + [(j.step.skill, j.step.arguments)]
            && b.Now(d.log) == Dropped(j, b.m)
  {
    hide Clear, ValidArgs, Within, Job.Target, HiddenAfter, Orderly, Seen, Observe, ArmsIn, ArmOut, Motion, GuardAllows,
         Advance, RunDecisions.Succeeds, Sent, Sending, Answer, RunDecisions.Outcome, Undisturbed, Lookup;
    var x := b.Machine();
    EntersDrift(b, j, mode, c);
    var c1 := Advance(x, c);
    DropsTheArm(b, j, mode, c1);
    InnerExact(x, c1);
    AttemptExact(x, c1);
    var e := Attempted(x, c1);
    DroppedIsOut(j, b.m, mode);
    UndisturbedStamps(Dropped(j, b.m));
    HiddenOne(b.sensors, b.m, Sending(x, c1), Observed(RunDecisions.Outcome(x, c1)));
    StageLook(b, e, ForGuard);
    SameForMotion(j, b.Now(e.log).world, Look(x, e));
    GuardStopsMotion(j, Look(x, e), x.backend.clock(Watching(x, e), ForGuard));
    MotionsRetry(j);
    AttemptSent(x, c, c1);
    SentOne(0, e.log, Observed(Look(x, e)));
  }

  lemma MotionsRetry(j: Job)
    ensures "local_retry" in j.Contract().policy && "repair" in j.Contract().policy
  {
    assert POLICY[1] == "repair" && POLICY[2] == "local_retry";
  }

  lemma EntersDrift(b: Stage, j: Job, mode: FaultMode, c: Control)
    requires Clean(b) && Drifting(j, b.m, mode)
    requires c.mode.Outer? && c.index == 0 && c.plan.steps == [j.step] && b.Now(c.log) == b.m
    ensures var x := b.Machine();
            var d := Advance(x, c);
            && d == c.(log := Watching(x, c), mode := Inner(j.step, j.Contract(), Look(x, c), 1))
            && b.Now(d.log) == b.m && Mirrors(b.m.world, d.mode.before)
            && Lookup(DEFAULTS, j.step.skill) == Some(j.Contract())
  {
    hide Clear, ValidArgs, Within, Job.Target, HiddenAfter, Orderly, Seen, Observe, ArmsIn, Motion, GuardAllows,
         Advance, Lookup, Mirrors;
    var x := b.Machine();
    StageLook(b, c, ForGuard);
    SameForMotion(j, b.m.world, Look(x, c));
    JobCallable(j);
    GuardLetsMotion(j, Look(x, c), x.backend.clock(Watching(x, c), ForGuard));
    OuterExact(x, c);
    StageMirrors(b, c.log, c.last);
  }

  lemma DropsTheArm(b: Stage, j: Job, mode: FaultMode, c: Control)
    requires Clean(b) && Drifting(j, b.m, mode) && b.flags.verifyOutcomes
    requires c.mode.Inner? && c.mode.step == j.step && c.mode.skill == j.Contract() && b.Now(c.log) == b.m
    requires Lookup(DEFAULTS, j.step.skill) == Some(j.Contract()) && Mirrors(b.m.world, c.mode.before)
    ensures b.Now(Sending(b.Machine(), c)) == Dropped(j, b.m) && !RunDecisions.Succeeds(b.Machine(), c)
  {
    hide Clear, ValidArgs, Within, HiddenAfter, Orderly, Observe, ArmsIn, ArmOut, Motion, ExpectedEffects, Command,
         Undisturbed, Lookup, Job.Target, Mirrors, Seen;
    var x := b.Machine();
    FaultDrops(b.sensors, j, b.m, mode);
    HiddenOne(b.sensors, b.m, c.log, Commanded(c.mode.skill.name, c.mode.step.arguments, Answer(x, c)));
    DroppedIsOut(j, b.m, mode);
    UndisturbedStamps(Dropped(j, b.m));
    LookShows(b.sensors, Dropped(j, b.m), b.timing, Sending(x, c), c.last, ForGuard);
    var after := RunDecisions.Outcome(x, c);
    StillUnreached(j, b.m, mode, c.mode.before, after);
  }

  /** The motion has not got anywhere. */
  lemma StillUnreached(j: Job, m: Hidden, mode: FaultMode, before: State, after: State)
    requires Drifting(j, m, mode) && Mirrors(m.world, before)
    requires forall k :: k != LAST_RESULT ==> Raw(after, k) == Raw(Dropped(j, m).world, k)
    ensures !OutcomeVerified(j.Contract(), j.step.arguments, before, after)
  {
    hide ValidArgs, Within, Orderly, ArmsIn, ArmOut, Motion, ExpectedEffects, Job.Target, Undisturbed;
    var args, field := j.step.arguments, j.Field();
    DroppedIsOut(j, m, mode);
    FieldsApart(j);
    JobEffects(j, before);
    JobEffects(j, m.world);
    MirroredEffects(j.Contract(), args, m.world, before);
    var effects := ExpectedEffects(j.Contract(), args, before);
    assert effects[field] == j.Target(m.world);
    FieldIsNotResult(j);
    assert Raw(after, field) == Raw(m.world, field);
    OwnTolerance(j, before);
    assert !FieldVerified(j.Contract(), args, after, field, effects[field]);
  }

  lemma OwnTolerance(j: Job, s: State)
    ensures SpecFor(j.Contract().effects, j.step.arguments, j.Field()) == Some(j.Contract().effects[0])
    ensures j.Contract().effects[0].tolerance == 0.001
  {
    LiteralFormat(LIFT, j.step.arguments);
    LiteralFormat(POSITION, j.step.arguments);
  }

  /** The step loop grounds the motion again: nothing to ask for, so the plan is repaired. */
  lemma DriftMends(b: Stage, j: Job, c: Control)
    requires Clean(b) && Motion(j) && Recovering(b.config, b.flags)
    requires c.mode.Outer? && c.index == 0 && c.plan.steps == [j.step] && c.plan.metadata.blocked == {}
    requires c.runtimeRepairs == 0 && ArmOut(j, b.Now(c.log).world) && Undisturbed(b.Now(c.log))
    ensures var d := Advance(b.Machine(), c);
            && d.mode.Outer? && d.index == 0 && ArmThenMotion(j, d.plan.steps) && d.plan.metadata == c.plan.metadata
            && d.results == c.results && d.decisions == c.decisions + [REPAIR]
            && Sent(0, d.log) == Sent(0, c.log) && b.Now(d.log) == b.Now(c.log)
  {
    hide Clear, ValidArgs, HiddenAfter, Undisturbed, Seen, Observe, ArmOut, Motion, GuardAllows, Advance, Sent, Ground,
         Repair, Permissive, Reported, Report.RequiresStop, ObservableFields, RepairPermitted, Wanting, Callable,
         ArmThenMotion;
    var x := b.Machine();
    var s, log := Look(x, c), Watching(x, c);
    UndisturbedStamps(b.Now(c.log));
    StageLook(b, c, ForGuard);
    StageLook(b, c, ForSuffix);
    StageLook(b, c, ForRepair);
    SameForMotion(j, b.Now(c.log).world, s);
    GuardStopsMotion(j, s, x.backend.clock(log, ForGuard));
    JobCallable(j);
    MotionsRetry(j);
    StageIsPermissive(b, j);
    assert c.plan.steps[0..] == [j.step];
    var rest := Remaining(c);
    ArmOutReport(x.Caps(), x.backend.clock(log, ForSuffix), rest, j, s);
    NothingToAsk(x, c);
    RepairPutsTheArmFirst(x.config.limits, x.backend.clock(log, ForRepair), rest, j, s);
    var r := Mended(x, c);
    assert r.Some? && r.value.steps != [j.step] by { ArmIsTwoSteps(j, r.value.steps); }
    assert DeniedNow(x, c);
    RefusalExact(x, c);
    assert [] + r.value.steps == r.value.steps;
    SentOne(0, c.log, Observed(s));
  }

  lemma NothingToAsk(x: Setup, c: Control)
    requires c.index <= |c.plan.steps|
    requires var now := x.backend.clock(Watching(x, c), ForSuffix);
             var report := Ground(x.Reg(), x.Caps(), now, Remaining(c), Look(x, c));
             ObservableFields(x.Reg(), Remaining(c), report, x.backend.capabilities) == {}
    ensures !MayAcquire(x, c)
  {
    hide Ground, ObservableFields, Wanting;
    var now := x.backend.clock(Watching(x, c), ForSuffix);
    if field :| Asked(x, c, field) {
      AskedExactly(x.Reg(), x.Caps(), now, Remaining(c), Look(x, c), x.backend.capabilities, field);
    }
  }

  /** The arm is retracted, then the motion goes through. */
  lemma RetractIsReady(b: Stage, j: Job, c: Control)
    requires Clean(b) && Motion(j) && c.mode.Outer? && c.index == 0 && ArmThenMotion(j, c.plan.steps)
    requires ArmOut(j, b.Now(c.log).world) && Undisturbed(b.Now(c.log))
    ensures Ready(b, c) && c.plan.steps[0].skill == "retract_arm" && c.plan.steps[0].arguments == ArmArgs(j.arm)
    ensures Declared(b.Now(c.log).world, "retract_arm", ArmArgs(j.arm)) ==
            Project(DEFAULTS, b.Now(c.log).world, Retract(j))
  {
    hide Clear, ValidArgs, HiddenAfter, Undisturbed, Seen, Observe, ArmOut, Motion, GuardAllows, Permissive, Lookup,
         StepGrounded, ContractMet;
    var step, world, s := c.plan.steps[0], b.Now(c.log).world, Look(b.Machine(), c);
    UndisturbedStamps(b.Now(c.log));
    StageLook(b, c, ForGuard);
    SameForMotion(j, world, s);
    var now := b.timing.clock(c.log + [Observed(s)], ForGuard);
    GuardLetsRetract(j, step, s, now);
    DefaultLookup("retract_arm");
    ArmIsValid(j);
    StageMirrors(b, c.log, c.last);
    NoCapabilities(j);
    RetractGrounded(None, now, step, j, s);
    ContractOfWorld(step, now, s, world, j);
  }

  lemma NoCapabilities(j: Job)
    ensures Permissive(j, None)
  {
  }

  /** What holds of the look holds of the world, if the contract does not read last results. */
  lemma ContractOfWorld(step: Step, now: real, s: State, world: State, j: Job)
    requires StepGrounded(DEFAULTS, None, now, step, s)
    requires s.active == world.active && forall k :: k != LAST_RESULT ==> Raw(s, k) == Raw(world, k)
    ensures ContractMet(DEFAULTS, world, step.skill, step.arguments)
  {
    hide ValidArgs, ExpectedEffects, Lookup, Format, EpistemicValue;
    var sk, args := Lookup(DEFAULTS, step.skill).value, step.arguments;
    DefaultLookup(step.skill);
    DefaultsOwnFields(sk, args);
    forall p | p in sk.preconditions ensures Demanded(world, args, p) {
      assert Evaluate(p, s, args, now).Satisfied();
      EpistemicExact(s, Format(p.field, args), p.maxAge, now);
      assert Raw(world, Format(p.field, args)) == Raw(s, Format(p.field, args));
    }
    OwnEffects(sk, args, s, world);
  }

  lemma OwnEffects(sk: Skill, args: Args, a: State, b: State)
    requires OwnFields(sk, args) && forall k :: k != LAST_RESULT ==> Raw(a, k) == Raw(b, k)
    ensures ExpectedEffects(sk, args, a) == ExpectedEffects(sk, args, b)
  {
    EffectsDictionary(sk.effects, args, a);
    EffectsDictionary(sk.effects, args, b);
    var p, q := ExpectedEffects(sk, args, a), ExpectedEffects(sk, args, b);
    forall k | k in p ensures k in q && q[k] == p[k] {
      var e := SpecFor(sk.effects, args, k).value;
      assert Raw(a, Format(e.field, args)) == Raw(b, Format(e.field, args));
      assert p[k] == ExpectedValue(e, args, a) && q[k] == ExpectedValue(e, args, b);
    }
    assert p.Keys == q.Keys;
  }

  lemma MotionIsReady(b: Stage, j: Job, c: Control)
    requires Clean(b) && Motion(j) && c.mode.Outer? && c.index == 1 && ArmThenMotion(j, c.plan.steps)
    requires ArmsIn(j, b.Now(c.log).world) && Undisturbed(b.Now(c.log))
    ensures Ready(b, c) && c.plan.steps[1] == j.step
  {
    hide Clear, ValidArgs, HiddenAfter, Undisturbed, Seen, Observe, ArmsIn, Motion, GuardAllows, Permissive, Lookup,
         StepGrounded, ContractMet;
    var world, s := b.Now(c.log).world, Look(b.Machine(), c);
    UndisturbedStamps(b.Now(c.log));
    StageLook(b, c, ForGuard);
    SameForMotion(j, world, s);
    var now := b.timing.clock(c.log + [Observed(s)], ForGuard);
    JobCallable(j);
    GuardLetsMotion(j, s, now);
    NoCapabilities(j);
    MotionGrounded(None, now, j, s);
    ContractOfWorld(j.step, now, s, world, j);
  }

  lemma RetractedIsIn(j: Job, w: State)
    requires Motion(j) && ArmOut(j, w)
    ensures var t := Project(DEFAULTS, w, Retract(j));
            && ArmsIn(j, t) && forall k :: k !in {j.Safe(), j.Ready()} ==> Raw(t, k) == Raw(w, k)
  {
    hide StepEffects, ValidArgs, Copy, NoFault;
    RetractEffects(j, w);
    ArmNames(j);
    FieldsApart(j);
    var t := Project(DEFAULTS, w, Retract(j));
    assert Raw(t, FAULT) == Raw(w, FAULT);
    SameFault(w, t);
  }

  lemma SameFault(a: State, b: State)
    requires Raw(a, FAULT) == Raw(b, FAULT)
    ensures NoFault(a) == NoFault(b)
  {
  }

  /** Where the run ends. */
  lemma DriftFinishes(b: Stage, j: Job, w: State, c: Control)
    requires Clean(b) && b.flags.verifyOutcomes && c.mode.Outer? && c.index == |c.plan.steps|
    requires GoalOnly(j, w, c.plan) && b.Now(c.log).world.observedAt == map[]
    requires Raw(b.Now(c.log).world, j.Field()) == j.Target(w)
    ensures var d := Advance(b.Machine(), c);
            && d.mode == Final(true) && d.results == c.results && d.decisions == c.decisions
            && Sent(0, d.log) == Sent(0, c.log) && b.Now(d.log) == b.Now(c.log)
  {
    hide Clear, HiddenAfter, Seen, Observe, Sent, Job.Target;
    var x := b.Machine();
    var s := Look(x, c);
    StageLook(b, c, ForGuard);
    StageMirrors(b, c.log, c.last);
    FieldIsNotResult(j);
    forall g | g in c.plan.metadata.goals.value ensures GoalMet(s, g) {
      SelfWithin(j.Target(w).value);
      MirrorIsKnown(b.Now(c.log).world, s, j.Field());
    }
    OuterExact(x, c);
    SentOne(0, c.log, Observed(s));
  }

  lemma SelfWithin(v: Value)
    ensures Within(Some(v), v, REPORT_TOLERANCE)
  {
  }

  /** What the run comes to. */
  ghost predicate Recovered(b: Stage, j: Job, c: Control) {
    var world := b.Now(c.log).world;
    && c.mode == Final(true) && |c.results| == 3
    && Sent(0, c.log) == [(j.step.skill, j.step.arguments), ("retract_arm", ArmArgs(j.arm)),
                          (j.step.skill, j.step.arguments)]
    && c.decisions == [EXECUTE, LOCAL_RETRY, REGROUND, REPAIR]
    && Raw(world, j.Field()) == j.Target(b.m.world)
    && forall k :: k != j.Field() ==> Raw(world, k) == Raw(b.m.world, k)
  }

  /** The failed motion, in three iterations. */
  lemma DriftBegins(b: Stage, j: Job, mode: FaultMode, c: Control)
    requires Clean(b) && Drifting(j, b.m, mode) && Recovering(b.config, b.flags)
    requires c == Start(b.Machine(), JobPlan(j), [], None)
    ensures var x := b.Machine();
            var d := Advance(x, Advance(x, Advance(x, c)));
            && d.mode.Outer? && d.index == 0 && ArmThenMotion(j, d.plan.steps) && GoalOnly(j, b.m.world, d.plan)
            && |d.results| == 1 && d.decisions == [EXECUTE, LOCAL_RETRY, REGROUND, REPAIR]
            && Sent(0, d.log) == [(j.step.skill, j.step.arguments)] && b.Now(d.log) == Dropped(j, b.m)
  {
    hide Clear, Advance, Start, Sent, HiddenAfter, ArmThenMotion, Orderly, ArmsIn, ArmOut, Undisturbed, Motion, Within,
         Job.Target;
    var x := b.Machine();
    DriftLaunches(b, j, mode);
    DriftRegrounds(b, j, mode, c);
    DroppedIsOut(j, b.m, mode);
    DriftMends(b, j, Advance(x, Advance(x, c)));
  }

  /** Retract, then move, in four more; and the end. */
  lemma DriftEnds(b: Stage, j: Job, mode: FaultMode, c: Control)
    requires Clean(b) && Drifting(j, b.m, mode) && Recovering(b.config, b.flags)
    requires c.mode.Outer? && c.index == 0 && ArmThenMotion(j, c.plan.steps) && GoalOnly(j, b.m.world, c.plan)
    requires |c.results| == 1 && c.decisions == [EXECUTE, LOCAL_RETRY, REGROUND, REPAIR]
    requires Sent(0, c.log) == [(j.step.skill, j.step.arguments)] && b.Now(c.log) == Dropped(j, b.m)
    ensures Recovered(b, j, Iterate(b.Machine(), c, 5))
  {
    hide Clear, Advance, Sent, HiddenAfter, Orderly, ArmsIn, ArmOut, Undisturbed, Motion, Within, Job.Target, Ready,
         ContractMet, Declared, GoalOnly, Project;
    var x := b.Machine();
    DroppedIsOut(j, b.m, mode);
    var w1 := b.Now(c.log).world;
    RetractIsReady(b, j, c);
    StepGoesThrough(b, c);
    var c2 := Advance(x, Advance(x, c));
    RetractedIsIn(j, w1);
    var w2 := b.Now(c2.log).world;
    assert ArmsIn(j, w2) && Undisturbed(b.Now(c2.log)) by { InStepIs(b.Now(c2.log)); }
    MotionIsReady(b, j, c2);
    StepGoesThrough(b, c2);
    var c4 := Advance(x, Advance(x, c2));
    UndisturbedStamps(b.Now(c4.log));
    DeclaredMotion(j, b.m, w1, w2, b.Now(c4.log).world);
    assert |c4.plan.steps| == 2;
    DriftFinishes(b, j, b.m.world, c4);
    FiveMore(x, c);
  }

  lemma InStepIs(h: Hidden)
    ensures forall w :: InStep(h, w) ==> Undisturbed(h) && h.world == w
  {
  }

  lemma FiveMore(x: Setup, c: Control)
    ensures Iterate(x, c, 5) == Advance(x, Advance(x, Advance(x, Advance(x, Advance(x, c)))))
  {
    hide Advance;
    assert Iterate(x, c, 1) == Advance(x, Iterate(x, c, 0));
    assert Iterate(x, c, 2) == Advance(x, Iterate(x, c, 1));
    assert Iterate(x, c, 3) == Advance(x, Iterate(x, c, 2));
    assert Iterate(x, c, 4) == Advance(x, Iterate(x, c, 3));
  }

  lemma DeclaredMotion(j: Job, m: Hidden, w1: State, w2: State, w3: State)
    requires Motion(j) && ArmsIn(j, m.world) && w1 == Dropped(j, m).world
    requires w2 == Project(DEFAULTS, w1, Retract(j)) && w3 == Declared(w2, j.step.skill, j.step.arguments)
    ensures Raw(w3, j.Field()) == j.Target(m.world)
    ensures forall k :: k != j.Field() ==> Raw(w3, k) == Raw(m.world, k)
  {
    hide Copy, Motion, StepEffects, Job.Target, ArmsIn, Job.Safe, Job.Ready, Job.Field;
    FieldsApart(j);
    ArmsInFlags(j, m.world);
    RetractEffects(j, w1);
    MotionPredicts(j, w2);
    assert forall k :: Raw(w1, k) == if k == j.Safe() then Some(Bool(false)) else Raw(m.world, k);
    assert forall k :: Raw(w2, k) == if k == j.Safe() || k == j.Ready() then Some(YES) else Raw(w1, k);
    TargetStays(j, m.world, w2);
    ProjectsAlike(Step("", j.step.skill, j.step.arguments, [], None, None), j.step, w2);
    assert w3 == Project(DEFAULTS, w2, j.step);
    assert forall k :: Raw(w3, k) == if k == j.Field() then j.Target(w2) else Raw(w2, k);
  }

  lemma ArmsInFlags(j: Job, w: State)
    requires ArmsIn(j, w)
    ensures Raw(w, j.Safe()) == Some(YES) && Raw(w, j.Ready()) == Some(YES)
  {
  }

  /** The closed loop under drift. Ask the undisturbed mock to move its base or its lift, and let
      the command fail in any way that leaves one of the arms out. The guard refuses to try
      again, the step loop grounds the motion anew and repairs the rest of the plan; the run
      sends exactly the motion, the retraction and the motion, and succeeds; and in the hidden
      world only the field that the motion was to change has changed. */
  lemma DriftIsRepaired(b: Stage, j: Job, mode: FaultMode)
    requires Clean(b) && Drifting(j, b.m, mode) && Recovering(b.config, b.flags)
    ensures Recovered(b, j, After(b.Machine(), JobPlan(j), [], None, 8))
  {
    hide Clean, Drifting, Recovering, Advance, Start, Sent, GoalOnly, Recovered, ArmThenMotion, Iterate;
    var x := b.Machine();
    var c := Start(x, JobPlan(j), [], None);
    DriftBegins(b, j, mode, c);
    DriftEnds(b, j, mode, Advance(x, Advance(x, Advance(x, c))));
    ThreeMore(x, c);
    IterateAdd(x, c, 3, 5);
  }

  lemma ThreeMore(x: Setup, c: Control)
    ensures Iterate(x, c, 3) == Advance(x, Advance(x, Advance(x, c)))
  {
    hide Advance;
    assert Iterate(x, c, 1) == Advance(x, Iterate(x, c, 0));
    assert Iterate(x, c, 2) == Advance(x, Iterate(x, c, 1));
  }

  /** The new mock with either arm, either motion and any mode of failure is such a case. */
  lemma NewMockDrifts(j: Job, mode: FaultMode)
    requires Motion(j) && j.Target(INITIAL_WORLD).Some?
    requires !Within(Raw(INITIAL_WORLD, j.Field()), j.Target(INITIAL_WORLD).value, 0.001)
    ensures Drifting(j, Hidden(INITIAL_WORLD, map[j.step.skill := [Fault(mode, ArmDrops(j))]], map[], map[]), mode)
  {
    hide ValidArgs, Within, Job.Target, ArmsIn, Orderly;
    NewWorldIsReady(j);
  }
}
