/** Exact retry for every built-in call: the undisturbed mock keeps the promise that the retry
    theorem asks for. */
module MockDefaultRetry {
  import opened Values
  import opened RobotState
  import opened Templates
  import opened Skills
  import opened Registry
  import opened DefaultSkills
  import opened Capability
  import opened Grounder
  import opened GrounderSpec
  import opened Executor
  import opened RunAdequacy
  import opened MockBackend
  import opened MockTruth
  import opened MockRetry
  import opened MockContracts
  import opened MockRuns
  import opened MockLift
  import opened MockMotion
  import opened MockArmFirst

  /** A built-in call on a mock with clear sensors in an orderly world. Nothing may go wrong
      but the faults queued for its skill, which let nothing drift. */
  ghost predicate Prepared(b: Bench) {
    && b.config.reg == DEFAULTS && b.config.replanner.None?
    && b.flags.verifyOutcomes && b.flags.allowRecovery
    && Clear(b.sensors) && Orderly(b.hidden.world) && b.hidden.world.observedAt == map[]
    && Punctual(b.timing)
    && Lookup(DEFAULTS, b.step.skill) == Some(b.skill)
    && (forall f :: f in b.Faults() ==> f.drift == map[])
    && b.skill.name !in b.hidden.permanent
  }

  lemma LiteralIsOwn(p: Template, name: string, args: Args)
    requires p == [Lit(name)] && name != LAST_RESULT
    ensures Format(p, args) != LAST_RESULT
  {
    LiteralFormat(name, args);
  }

  /** No built-in contract reads or writes the executor's own last result. */
  lemma DefaultsOwnFields(sk: Skill, args: Args)
    requires sk in DEFAULTS && ValidArgs(sk, args)
    ensures OwnFields(sk, args)
  {
    hide Format, ValidArgs;
    if sk == RETRACT_ARM || sk == EXTEND_ARM {
      ArmChosen(sk, args);
      ArmFields(args);
      ArmFormat("_arm_ready", args);
      ArmFormat("_arm_safe", args);
    } else {
      forall p | p in sk.preconditions ensures Format(p.field, args) != LAST_RESULT {
        LiteralIsOwn(p.field, p.field[0].text, args);
      }
      forall e | e in sk.effects ensures Format(e.field, args) != LAST_RESULT {
        LiteralIsOwn(e.field, e.field[0].text, args);
      }
    }
  }

  lemma PreparedIsArranged(b: Bench)
    requires Prepared(b) && ValidArgs(b.skill, b.step.arguments)
    ensures Arranged(b) && b.skill in DEFAULTS
  {
    hide ValidArgs, OwnFields, Lookup;
    DefaultLookup(b.step.skill);
    assert b.skill in DEFAULTS;
    DefaultsOwnFields(b.skill, b.step.arguments);
    assert "local_retry" in POLICY by { assert POLICY[2] == "local_retry"; }
    assert b.skill.policy == POLICY;
  }

  lemma PreparedIsInTime(b: Bench)
    requires Prepared(b) && b.skill in DEFAULTS
    ensures InTime(b)
  {
    hide Observe, HiddenAfter, Timely, Overlay, Orderly;
    forall sk, p | sk in DEFAULTS && p in sk.preconditions && p.maxAge.Some? ensures 5.0 <= p.maxAge.value {
      DefaultLimits(sk, p);
    }
    PromptGuardsAreInTime(b.config, b.flags, b.sensors, b.hidden, b.timing, b.caps, 5.0);
    LimitOf(b.skill);
  }

  /** What grounding saw of the call holds of every state with the same evidence. */
  lemma SameContract(b: Bench, caps: Option<Capabilities>, now: real, s: State, w: State)
    requires Lookup(DEFAULTS, b.step.skill) == Some(b.skill) && OwnFields(b.skill, b.step.arguments)
    requires StepGrounded(DEFAULTS, caps, now, b.step, s) && SameEvidence(w, s)
    ensures ContractMet(DEFAULTS, w, b.step.skill, b.step.arguments)
    ensures ExpectedEffects(b.skill, b.step.arguments, w) == ExpectedEffects(b.skill, b.step.arguments, s)
  {
    hide Lookup, ValidArgs, ExpectedEffects, EpistemicValue, Format, BackendAccepts, Unobstructed, OptEq;
    var args := b.step.arguments;
    SameEffects(b.skill, args, w, s);
    forall p | p in b.skill.preconditions ensures Demanded(w, args, p) {
      assert Evaluate(p, s, args, now).Satisfied();
      EpistemicExact(s, Format(p.field, args), p.maxAge, now);
      assert Raw(w, Format(p.field, args)) == Raw(s, Format(p.field, args));
    }
  }

  /** The command that goes through leaves the declared world, which the sensors show. */
  lemma DoneIsDeclared(b: Bench)
    requires Prepared(b) && ContractMet(DEFAULTS, b.Seen(b.hidden), b.step.skill, b.step.arguments)
    ensures Transition(b.sensors, b.hidden.world, b.skill.name, b.step.arguments).0
    ensures var seen, done := b.Seen(b.hidden), b.Seen(b.Done());
            && done.vals == Copy(seen, ExpectedEffects(b.skill, b.step.arguments, seen)).vals
            && done.active == seen.active && done.stale == {} && done.conflicts == map[]
  {
    hide Observe, Transition, Lookup, ValidArgs, ExpectedEffects, Orderly;
    var seen, world, args := b.Seen(b.hidden), b.hidden.world, b.step.arguments;
    DefaultLookup(b.step.skill);
    ClearLook(b.sensors, b.hidden, At(0.0));
    assert KnowsMore(seen, world);
    MirroredEffects(b.skill, args, seen, world);
    assert ContractMet(DEFAULTS, world, b.step.skill, args);
    assert Knows(DEFAULTS, b.step.skill);
    MockHonoursContracts(b.sensors, world, b.skill.name, args);
    DeclaredKeepsEvidence(world, b.skill.name, args);
    ClearLook(b.sensors, b.Done(), At(0.0));
    SameValues(Declared(world, b.skill.name, args), Copy(seen, ExpectedEffects(b.skill, args, seen)));
  }

  lemma DoneIsVerified(b: Bench)
    requires Prepared(b) && ContractMet(DEFAULTS, b.Seen(b.hidden), b.step.skill, b.step.arguments)
    ensures OutcomeVerified(b.skill, b.step.arguments, b.Seen(b.hidden), b.Seen(b.Done()))
  {
    hide Observe, Transition, Lookup, ValidArgs, ExpectedEffects, Orderly, OutcomeVerified, ContractMet, WellFormed;
    DoneIsDeclared(b);
    ClearLook(b.sensors, b.hidden, At(0.0));
    EffectsAreForeseen(b.skill, b.step, b.Seen(b.hidden));
    var seen, done := b.Seen(b.hidden), b.Seen(b.Done());
    assert forall k :: Raw(done, k) == Raw(Copy(seen, ExpectedEffects(b.skill, b.step.arguments, seen)), k);
    PredictedIsVerified(b.skill, b.step.arguments, seen, seen, done);
  }


  lemma {:induction false} UpdatedFields(goals: Goals, keys: seq<string>, effects: Changes)
    ensures forall g :: g in UpdateGoals(goals, keys, effects) ==> g in goals || g.0 in keys
    decreases |keys|
  {
    if keys != [] {
      var k := keys[0];
      var next := if k in effects && effects[k].Some? then PutGoal(goals, k, effects[k].value) else goals;
      if k in effects && effects[k].Some? { PutFields(goals, k, effects[k].value); }
      UpdatedFields(next, keys[1..], effects);
    }
  }

  lemma {:induction false} PutFields(goals: Goals, field: string, value: Value)
    ensures forall g :: g in PutGoal(goals, field, value) ==> g in goals || g.0 == field
  {
    if goals != [] { PutFields(goals[1..], field, value); }
  }

  /** Goals projected from the call are on fields of its contract. */
  lemma ProjectedGoalsAreOwn(b: Bench, plan: Plan, s: State)
    requires plan.steps == [b.step] && plan.metadata.goals.None?
    requires Lookup(DEFAULTS, b.step.skill) == Some(b.skill) && OwnFields(b.skill, b.step.arguments)
    ensures OwnGoals(WithGoalState(DEFAULTS, plan, s))
  {
    hide Lookup, ExpectedEffects, EffectKeys, Predictable, Project;
    var args := b.step.arguments;
    var steps: seq<Step>, none: Goals := plan.steps, [];
    var keys := EffectKeys(b.skill, args);
    UpdatedFields(none, keys, ExpectedEffects(b.skill, args, s));
    assert forall k :: k in keys ==> k != LAST_RESULT by { KeysAreOwn(b.skill, args, s); }
    assert steps[1..] == [];
    assert GoalFold(DEFAULTS, steps, s, none) ==
           if Predictable(DEFAULTS, steps[0], s) then StepGoals(DEFAULTS, none, steps[0], s) else none;
  }

  lemma KeysAreOwn(sk: Skill, args: Args, s: State)
    requires OwnFields(sk, args)
    ensures LAST_RESULT !in EffectKeys(sk, args)
  {
    EffectsDictionary(sk.effects, args, s);
  }

  /** The goals, stated ones included, hold where the call leads. */
  predicate GoalsInReach(b: Bench, plan: Plan, s: State) {
    OwnGoals(plan) && GoalsReached(plan, Project(DEFAULTS, s, b.step))
  }

  lemma DoneMeetsGoals(b: Bench, goal: Plan, s: State)
    requires Prepared(b) && ContractMet(DEFAULTS, b.Seen(b.hidden), b.step.skill, b.step.arguments)
    requires SameEvidence(b.Seen(b.hidden), s) && GoalsInReach(b, goal, s)
    requires ExpectedEffects(b.skill, b.step.arguments, b.Seen(b.hidden)) ==
             ExpectedEffects(b.skill, b.step.arguments, s)
    ensures GoalsMet(goal, b.Seen(b.Done()))
  {
    hide Observe, Transition, Lookup, ValidArgs, ExpectedEffects, Orderly, ContractMet;
    DoneIsDeclared(b);
    var seen, done := b.Seen(b.hidden), b.Seen(b.Done());
    var effects := ExpectedEffects(b.skill, b.step.arguments, s);
    assert Project(DEFAULTS, s, b.step) == Copy(s, effects);
    if goal.metadata.goals.Some? {
      forall g | g in goal.metadata.goals.value ensures GoalMet(done, g) {
        assert Within(Raw(Copy(s, effects), g.0), g.1, REPORT_TOLERANCE);
        assert Raw(done, g.0) == Raw(Copy(seen, effects), g.0) == Raw(Copy(s, effects), g.0);
      }
    }
  }

  lemma GroundedCallReaches(b: Bench, caps: Option<Capabilities>, now: real, plan: Plan, s: State)
    requires Prepared(b) && plan.steps == [b.step] && plan.metadata.goals.None?
    requires OwnFields(b.skill, b.step.arguments) && StepGrounded(DEFAULTS, caps, now, b.step, s)
    ensures GoalsInReach(b, WithGoalState(DEFAULTS, plan, s), s)
  {
    hide StepGrounded, OwnFields, Project, WithGoalState, GoalsReached;
    ProjectedGoalsAreOwn(b, plan, s);
    assert SimAt(DEFAULTS, plan.steps, s, 0) == s;
    assert SimAt(DEFAULTS, plan.steps, s, 1) == Project(DEFAULTS, s, b.step);
    DefaultsArePredictable(caps, now, plan.steps, s);
    ProjectedGoalsReached(DEFAULTS, caps, now, plan, s);
  }

  lemma PreparedIsEffective(b: Bench, caps: Option<Capabilities>, now: real, goal: Plan, s: State)
    requires Prepared(b) && OwnFields(b.skill, b.step.arguments)
    requires StepGrounded(DEFAULTS, caps, now, b.step, s) && SameEvidence(b.Seen(b.hidden), s)
    requires GoalsInReach(b, goal, s)
    requires !OutcomeVerified(b.skill, b.step.arguments, b.Seen(b.hidden), b.Seen(b.hidden))
    ensures Effective(b, goal)
  {
    hide Orderly, OwnFields, StepGrounded, SameEvidence, OutcomeVerified, ContractMet, GoalsMet, Observe, Transition;
    SameContract(b, caps, now, s, b.Seen(b.hidden));
    DoneIsDeclared(b);
    DoneIsVerified(b);
    DoneMeetsGoals(b, goal, s);
  }

  lemma GroundedCall(b: Bench, caps: Option<Capabilities>, now: real, goal: Plan, s: State)
    requires goal.steps == [b.step] && Ground(DEFAULTS, caps, now, goal, s).valid
    ensures StepGrounded(DEFAULTS, caps, now, b.step, s)
  {
    hide Ground, StepGrounded;
    GroundedSteps(DEFAULTS, caps, now, goal, s);
    assert SimAt(DEFAULTS, goal.steps, s, 0) == s;
    assert StepGrounded(DEFAULTS, caps, now, goal.steps[0], SimAt(DEFAULTS, goal.steps, s, 0));
  }

  lemma GroundedCallIsValid(b: Bench, caps: Option<Capabilities>, now: real, s: State)
    requires Lookup(DEFAULTS, b.step.skill) == Some(b.skill) && StepGrounded(DEFAULTS, caps, now, b.step, s)
    ensures ValidArgs(b.skill, b.step.arguments)
  {
  }

  /** Exact retry for the built-in skills. Take any call that preflight accepts as it is, on an
      orderly mock with clear sensors that does not show its effect yet, and k faults of any
      modes in the queue of its skill. Goals are projected, or stated and in reach. For all k
      and r: with r retries the run succeeds with exactly k + 1 commands if k <= r, and stops
      after exactly r + 1 otherwise. */
  lemma DefaultRetry(b: Bench, plan: Plan, last: Option<string>)
    requires Prepared(b) && plan.steps == [b.step]
    requires var x := b.Machine();
             var s := Overlay(x.backend.observe([]), last);
             && Ground(DEFAULTS, x.Caps(), x.backend.clock([Observed(s)], ForGround),
                       WithGoalState(DEFAULTS, plan, s), s).valid
             && (plan.metadata.goals.Some? ==> GoalsInReach(b, plan, s))
    requires !OutcomeVerified(b.skill, b.step.arguments, b.Seen(b.hidden), b.Seen(b.hidden))
    ensures var x := b.Machine();
            var k, r := |b.Faults()|, b.config.maxRetries;
            if k <= r then
              var c := After(x, plan, [], last, k + 3);
              c.mode == Final(true) && |c.results| == k + 1
            else
              var c := After(x, plan, [], last, r + 2);
              c.mode == Final(false) && |c.results| == r + 1
  {
    hide Ground, WithGoalState, Observe, Arranged, InTime, Effective, OutcomeVerified, StepGrounded, OwnFields,
         Overlay, After, SameEvidence, GoalsInReach, Orderly;
    var x := b.Machine();
    var s := Overlay(x.backend.observe([]), last);
    var now := x.backend.clock([Observed(s)], ForGround);
    var goal := WithGoalState(DEFAULTS, plan, s);
    WithGoalStateSteps(DEFAULTS, plan, s);
    GroundedCall(b, x.Caps(), now, goal, s);
    GroundedCallIsValid(b, x.Caps(), now, s);
    PreparedIsArranged(b);
    PreparedIsInTime(b);
    StartsTrying(b, plan, last);
    assert OwnFields(b.skill, b.step.arguments) by { DefaultsOwnFields(b.skill, b.step.arguments); }
    assert GoalsInReach(b, goal, s) by {
      if plan.metadata.goals.None? {
        GroundedCallReaches(b, x.Caps(), now, plan, s);
      } else {
        StatedGoalsStay(plan, s);
      }
    }
    PreparedIsEffective(b, x.Caps(), now, goal, s);
    ExactRetry(b, plan, last);
  }

  lemma StatedGoalsStay(plan: Plan, s: State)
    requires plan.metadata.goals.Some?
    ensures WithGoalState(DEFAULTS, plan, s) == plan
  {
  }

  // ---- The new mock's lift ---------------------------------------------------------------------------

  /** The new mock with `k` faults of one kind in the queue of its lift. */
  function LiftBench(k: nat, mode: FaultMode, maxRetries: nat, target: real): Bench {
    var sensors := Honest(map[]);
    var m := Hidden(INITIAL_WORLD, map["set_lift" := seq(k, _ => Fault(mode, map[]))], map[], map[]);
    Bench(PLAIN_CONFIG.(reg := DEFAULTS, maxRetries := maxRetries),
          PLAIN_FLAGS, sensors, m, STILL, Reported(sensors, [], m), LiftStep(target), SET_LIFT)
  }

  lemma LiftIsPrepared(k: nat, mode: FaultMode, maxRetries: nat, target: real)
    requires 0.0 <= target <= 780.0
    ensures var b := LiftBench(k, mode, maxRetries, target);
            && Prepared(b) && |b.Faults()| == k && Permissive(LiftJob(target, "left"), b.Machine().Caps())
  {
    hide Lookup, Orderly, Clear, Permissive, Reported, ValidArgs;
    DefaultLookup("set_lift");
    NewMockIsUndisturbed();
    var b := LiftBench(k, mode, maxRetries, target);
    LiftIsProper(target, "left");
    ReportedIsPermissive(LiftJob(target, "left"), b.sensors, [], b.hidden);
  }

  /** The first look at the new mock shows its world as it is now. */
  lemma LiftLook(b: Bench, m: Hidden, s: State)
    requires b.sensors == Honest(map[]) && m.world == INITIAL_WORLD
    requires s == Observe(b.sensors, m, At(0.0))
    ensures s.vals == INITIAL_WORLD.vals && s.active == {} && MockArmFirst.Seen(s, 0.0)
  {
    hide Observe;
    ClearLook(b.sensors, m, At(0.0));
    forall f | f in s.vals ensures InAge(StampOf(s, f), MAX_AGE, 0.0) {
      assert StampOf(s, f) == At(0.0);
    }
  }

  lemma LiftIsGrounded(caps: Option<Capabilities>, plan: Plan, s: State, target: real)
    requires Permissive(LiftJob(target, "left"), caps) && plan.steps == [LiftStep(target)] && 0.0 <= target <= 780.0
    requires s.vals == INITIAL_WORLD.vals && s.active == {} && MockArmFirst.Seen(s, 0.0)
    ensures Ground(DEFAULTS, caps, 0.0, plan, s).valid
  {
    hide Ground, Permissive, MockArmFirst.Seen, ArmsIn, Motion;
    LiftIsProper(target, "left");
    NewWorldIsReady(LiftJob(target, "left"));
    assert forall k :: Raw(s, k) == Raw(INITIAL_WORLD, k);
    SameForMotion(LiftJob(target, "left"), INITIAL_WORLD, s);
    MotionPlanGrounds(caps, 0.0, plan, LiftJob(target, "left"), s);
  }

  lemma LiftIsElsewhere(s: State, target: real)
    requires s.vals == INITIAL_WORLD.vals && Abs(100.0 - target) > 0.001
    ensures !OutcomeVerified(SET_LIFT, LiftArgs(target), s, s)
  {
    LiftEffects(target, s);
    var effects := ExpectedEffects(SET_LIFT, LiftArgs(target), s);
    assert LIFT in effects && Raw(s, LIFT) == Some(Float(100.0));
    assert !FieldVerified(SET_LIFT, LiftArgs(target), s, LIFT, effects[LIFT]);
  }

  /** Raising the lift of the new mock with `k` queued faults of any kind and `r` retries:
      success after k + 1 commands if k <= r, a stop after r + 1 otherwise. */
  lemma LiftRetries(k: nat, mode: FaultMode, r: nat, target: real)
    requires 0.0 <= target <= 780.0 && Abs(100.0 - target) > 0.001
    ensures var x := LiftBench(k, mode, r, target).Machine();
            if k <= r then
              var c := After(x, LiftPlan(target), [], None, k + 3);
              c.mode == Final(true) && |c.results| == k + 1
            else
              var c := After(x, LiftPlan(target), [], None, r + 2);
              c.mode == Final(false) && |c.results| == r + 1
  {
    hide Observe, Ground, WithGoalState, Prepared, OutcomeVerified, After, Permissive, MockArmFirst.Seen;
    var b := LiftBench(k, mode, r, target);
    var x := b.Machine();
    var s := Overlay(x.backend.observe([]), None);
    LiftIsPrepared(k, mode, r, target);
    assert HiddenAfter(b.sensors, b.hidden, []) == b.hidden;
    LiftLook(b, b.hidden, s);
    LiftIsElsewhere(s, target);
    WithGoalStateSteps(DEFAULTS, LiftPlan(target), s);
    LiftIsGrounded(x.Caps(), WithGoalState(DEFAULTS, LiftPlan(target), s), s, target);
    DefaultRetry(b, LiftPlan(target), None);
  }
}
