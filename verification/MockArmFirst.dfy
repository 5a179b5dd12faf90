/** The closed loop at work: a motion while one arm is out. Preflight finds the arm unsafe, the
    search finds `retract_arm`, and the repaired plan moves the mock. */
module MockArmFirst {
  import opened Values
  import opened RobotState
  import opened Templates
  import opened Skills
  import opened Registry
  import opened DefaultSkills
  import opened Capability
  import opened Grounder
  import opened GrounderSpec
  import opened GrounderStops
  import opened Repairer
  import opened RepairSoundness
  import opened SearchCompleteness
  import opened Executor
  import opened RunSafety
  import opened RunAdequacy
  import opened MockBackend
  import opened MockMotion
  import opened MockContracts

  function ArmArgs(arm: string): Args { map[ARM := Str(arm)] }

  /** The step the search finds. */
  function Retract(j: Job): Step {
    Step("candidate", "retract_arm", ArmArgs(j.arm), [(j.Safe(), YES)], None, Some(AUTHOR))
  }

  /** Clean evidence, in age at `now`. */
  predicate Seen(s: State, now: real) {
    && s.stale == {} && s.conflicts == map[]
    && forall f :: f in s.vals ==> InAge(StampOf(s, f), MAX_AGE, now)
  }

  lemma SeenIsKnown(s: State, now: real, field: string)
    requires Seen(s, now) && Raw(s, field).Some?
    ensures EpistemicValue(s, field, MAX_AGE, now) == Evidence(Raw(s, field), Known)
    ensures Epistemic(s, field) == Evidence(Raw(s, field), Known)
  {
  }

  lemma ArmNames(j: Job)
    requires Motion(j)
    ensures j.arm + "_arm_safe" == j.Safe() && j.arm + "_arm_ready" == j.Ready()
    ensures j.Safe() != j.OtherSafe() && j.Safe() != j.Ready() && j.Safe() != j.Enabled() && j.Ready() != j.Enabled()
    ensures {j.Safe(), j.Ready()} !! {POSITION, LIFT, YAW, PITCH, EMERGENCY, FAULT, j.OtherSafe()}
  {
    hide ValidArgs;
    if j.arm == "left" { LeftNames(j); } else { RightNames(j); }
  }

  lemma LeftNames(j: Job)
    requires j.arm == "left"
    ensures j.arm + "_arm_safe" == j.Safe() == LEFT_SAFE && j.arm + "_arm_ready" == j.Ready() == LEFT_READY
    ensures j.Safe() != j.OtherSafe() && j.Safe() != j.Ready() && j.Safe() != j.Enabled() && j.Ready() != j.Enabled()
    ensures {j.Safe(), j.Ready()} !! {POSITION, LIFT, YAW, PITCH, EMERGENCY, FAULT, j.OtherSafe()}
  {
    LengthsDiffer();
    assert "left" + "_arm_safe" == LEFT_SAFE && "left" + "_arm_ready" == LEFT_READY;
  }

  lemma RightNames(j: Job)
    requires j.arm == "right"
    ensures j.arm + "_arm_safe" == j.Safe() == RIGHT_SAFE && j.arm + "_arm_ready" == j.Ready() == RIGHT_READY
    ensures j.Safe() != j.OtherSafe() && j.Safe() != j.Ready() && j.Safe() != j.Enabled() && j.Ready() != j.Enabled()
    ensures {j.Safe(), j.Ready()} !! {POSITION, LIFT, YAW, PITCH, EMERGENCY, FAULT, j.OtherSafe()}
  {
    LengthsDiffer();
    assert "right" + "_arm_safe" == RIGHT_SAFE && "right" + "_arm_ready" == RIGHT_READY;
  }

  lemma LengthsDiffer()
    ensures {LEFT_SAFE, LEFT_READY, RIGHT_SAFE, RIGHT_READY} !!
            {POSITION, LIFT, YAW, PITCH, EMERGENCY, FAULT, "lift_ready", "agv_ready"}
    ensures LEFT_SAFE != LEFT_READY && LEFT_SAFE != RIGHT_SAFE && RIGHT_SAFE != RIGHT_READY && LEFT_READY != RIGHT_SAFE
    ensures LEFT_SAFE != RIGHT_READY
  {
    assert |LEFT_SAFE| == 13 && |LEFT_READY| == 14 && |RIGHT_SAFE| == 14 && |RIGHT_READY| == 15;
    assert LEFT_READY[0] == 'l' && RIGHT_SAFE[0] == 'r' && EMERGENCY[0] == 'e';
    assert |POSITION| == 14 && POSITION[0] == 'a' && |LIFT| == 14 && LIFT[2] == 'f' && LEFT_READY[1] == 'e';
  }

  // ---- The only candidate ---------------------------------------------------------------------

  lemma LiteralMatchesOnlyItself(name: string, field: string)
    requires name != field
    ensures Match([Lit(name)], field).None?
  {
    var t: Template := [Lit(name)];
    assert Holes(t) == {};
    MatchSound(t, field);
    if Match(t, field).Some? { LiteralFormat(name, AsArgs(Match(t, field).value)); }
  }

  lemma CutSuffix(a: string, b: string, suffix: string)
    requires a + suffix == b + suffix
    ensures a == b
  {
    assert |a| == |b| && a == (a + suffix)[..|a|] && b == (b + suffix)[..|b|];
  }

  lemma ArmMatches(j: Job)
    requires Motion(j)
    ensures Match(ARM_SAFE, j.Safe()) == Some(map[ARM := j.arm])
  {
    hide Match, Format, ValidArgs, Job.Safe, Job.Ready, Job.OtherSafe;
    var suffix, b := "_arm_safe", map[ARM := j.arm];
    ArmNames(j);
    assert Holes(ARM_SAFE) == {ARM} by { assert ARM_SAFE[0] in ARM_SAFE; }
    ArmFormat(suffix, AsArgs(b));
    assert Fits(ARM_SAFE, b, j.Safe());
    MatchExact(ARM_SAFE, j.Safe());
    MatchSound(ARM_SAFE, j.Safe());
    var m := Match(ARM_SAFE, j.Safe()).value;
    ArmFormat(suffix, AsArgs(m));
    CutSuffix(m[ARM], j.arm, suffix);
    assert m == b;
  }

  lemma {:induction false} NoCandidates(reg: Skillset, field: string, target: Value, s: State, excluded: set<string>)
    requires forall sk :: sk in reg ==> SynthesizeCall(sk, sk.effects, field, target, s).None?
    ensures SynthesizeCandidates(reg, field, target, s, "candidate", AUTHOR, excluded) == []
  {
    hide SynthesizeCall;
    if reg != [] { NoCandidates(reg[1..], field, target, s, excluded); }
  }

  /** No other built-in skill can make the arm safe. */
  lemma OthersCannot(sk: Skill, j: Job, s: State)
    requires sk in [EXTEND_ARM, MOVE_AGV, SET_LIFT, SET_HEAD] && Motion(j)
    ensures SynthesizeCall(sk, sk.effects, j.Safe(), YES, s).None?
  {
    hide Match, ValidArgs;
    ArmNames(j);
    LiteralMatchesOnlyItself(POSITION, j.Safe());
    LiteralMatchesOnlyItself(LIFT, j.Safe());
    LiteralMatchesOnlyItself(YAW, j.Safe());
    LiteralMatchesOnlyItself(PITCH, j.Safe());
    assert forall e :: e in sk.effects ==> SynthesizeArguments(e, j.Safe(), YES, s).None?;
  }

  lemma ArmIsValid(j: Job)
    requires Motion(j)
    ensures ValidArgs(RETRACT_ARM, ArmArgs(j.arm)) && ArmOf(ArmArgs(j.arm)) == j.arm
  {
    var p := RETRACT_ARM.params[0];
    assert p in RETRACT_ARM.params;
    assert Str(j.arm) in p.choices by { assert p.choices[0] == Str("left") && p.choices[1] == Str("right"); }
  }

  lemma RetractCan(j: Job, s: State)
    requires Motion(j)
    ensures SynthesizeCall(RETRACT_ARM, RETRACT_ARM.effects, j.Safe(), YES, s) == Some(ArmArgs(j.arm))
  {
    hide Match, ValidArgs;
    ArmMatches(j);
    ArmIsValid(j);
    assert AsArgs(map[ARM := j.arm]) == ArmArgs(j.arm);
    assert SynthesizeArguments(RETRACT_ARM.effects[0], j.Safe(), YES, s) == Some(ArmArgs(j.arm));
  }

  /** Of all built-in effects only that of `retract_arm` inverts to a safe arm. */
  lemma OnlyRetract(c: Context, j: Job, s: State)
    requires c.reg == DEFAULTS && c.excluded == {} && Motion(j)
    ensures Candidates(c, j.Safe(), YES, s) == [Retract(j)]
  {
    hide SynthesizeCall;
    var rest := [EXTEND_ARM, MOVE_AGV, SET_LIFT, SET_HEAD];
    forall sk | sk in rest ensures SynthesizeCall(sk, sk.effects, j.Safe(), YES, s).None? { OthersCannot(sk, j, s); }
    NoCandidates(rest, j.Safe(), YES, s, {});
    RetractCan(j, s);
    assert DEFAULTS[1..] == rest && DEFAULTS[0] == RETRACT_ARM;
  }

  // ---- The search and the repair -----------------------------------------------------------------

  lemma RetractEffects(j: Job, s: State)
    requires Motion(j)
    ensures StepEffects(DEFAULTS, Retract(j), s) == map[j.Safe() := Some(YES), j.Ready() := Some(YES)]
  {
    hide ExpectedEffects, Lookup, ArmOf, ValidArgs;
    DefaultLookup("retract_arm");
    DefaultEffects(ArmArgs(j.arm), s);
    ArmIsValid(j);
    ArmNames(j);
  }

  lemma RetractHolds(j: Job, s: State, now: real)
    requires Motion(j) && Seen(s, now) && Raw(s, j.Ready()) == Some(YES)
    ensures StepHolds(DEFAULTS, s, Retract(j), now)
  {
    hide Format, Lookup, EpistemicValue;
    DefaultLookup("retract_arm");
    ArmIsValid(j);
    ArmFormat("_arm_ready", ArmArgs(j.arm));
    ArmNames(j);
    SeenIsKnown(s, now, j.Ready());
    assert RETRACT_ARM.preconditions == [RETRACT_ARM.preconditions[0]];
  }

  /** One link: the arm is made safe by retracting it. */
  function ArmChain(j: Job): seq<Link> { [Link(j.Safe(), YES, Retract(j))] }

  /** What else the motion needs. */
  function Side(j: Job): set<string> { {j.Enabled(), j.OtherSafe()} }

  lemma RetractIsUnique(c: Context, j: Job, s: State)
    requires c.reg == DEFAULTS && c.excluded == {} && Motion(j)
    ensures UniqueAchiever(c, s, Side(j) + Fields(ArmChain(j)), ArmChain(j)[0])
  {
    hide StepEffects, Candidates;
    OnlyRetract(c, j, s);
    ArmNames(j);
    assert Fields(ArmChain(j)) == {j.Safe()} by { assert ArmChain(j)[0] in ArmChain(j); }
    forall t ensures Brings(StepEffects(c.reg, Retract(j), t), ArmChain(j)[0], Side(j) + Fields(ArmChain(j))) {
      RetractEffects(j, t);
    }
  }

  /** The motion lacks a safe arm and nothing else. */
  lemma MotionNeedsTheArm(c: Context, j: Job, s: State)
    requires c.reg == DEFAULTS && Motion(j) && Seen(s, c.now) && ArmOut(j, s)
    ensures Needs(c, s, Side(j), j.step, j.Safe(), YES)
  {
    hide Format, Lookup, EpistemicValue, ValidArgs, NoFault;
    JobCallable(j);
    JobPreconditions(j);
    ArmNames(j);
    SeenIsKnown(s, c.now, j.Enabled());
    SeenIsKnown(s, c.now, j.OtherSafe());
    var ps, args := j.Contract().preconditions, j.step.arguments;
    assert j.Safe() in s.vals;
    assert Format(ps[j.OwnArm()].field, args) == j.Safe() && ps[j.OwnArm()] in ps;
    forall p | p in ps ensures AsksFor(c, s, Side(j), p, args, j.Safe(), YES) {
      var k :| 0 <= k < 3 && ps[k] == p;
    }
  }

  /** So the default contracts form such a chain, although they carry age limits, several
      preconditions and several effects. */
  lemma ArmChainIsChain(c: Context, j: Job, s: State)
    requires c.reg == DEFAULTS && c.excluded == {} && Motion(j) && Seen(s, c.now) && ArmOut(j, s)
    ensures Chain(c, s, Side(j), ArmChain(j)) && Open(ArmChain(j), s, 0)
    ensures StepHolds(c.reg, s, Retract(j), c.now)
  {
    hide UniqueAchiever, StepHolds;
    RetractIsUnique(c, j, s);
    RetractHolds(j, s, c.now);
    SeenIsKnown(s, c.now, j.Safe());
    ArmNames(j);
    assert j.Safe() !in Side(j);
  }

  /** Over the default registry a safe arm is searched by retracting it, exactly when one level
      and one expansion are left. */
  lemma SearchRetracts(c: Context, j: Job, s: State, st: Stats)
    requires c.reg == DEFAULTS && c.excluded == {} && Motion(j) && Seen(s, c.now) && ArmOut(j, s)
    ensures Search(c, j.Safe(), YES, s, {}, 1, st).found ==
            if 1 <= c.limits.maxDepth && st.expanded < c.limits.maxExpansions
            then Some(Found([Retract(j)], Project(DEFAULTS, s, Retract(j))))
            else None
  {
    hide Search, Chain, Open, StepHolds, Project, WellFormedSkillset, ArmOut, Seen;
    ArmChainIsChain(c, j, s);
    SearchChain(c, ArmChain(j), Side(j), 0, s, {}, 1, st);
    DefaultNames();
    SearchSound(c, j.Safe(), YES, s, {}, 1, st);
    var found := Search(c, j.Safe(), YES, s, {}, 1, st).found;
    assert ChainSteps(ArmChain(j), 0) == [Retract(j)];
    assert [Retract(j)][1..] == [];
    if found.Some? { assert RepairSoundness.Runs(c, s, [Retract(j)], found.value.state); }
  }

  /** The three preconditions of the motion: only the arm's fails. */
  lemma MotionEvaluations(j: Job, s: State, now: real)
    requires Motion(j) && Seen(s, now) && ArmOut(j, s)
    ensures var evals := EvaluatePreconditions(j.Contract(), s, j.step.arguments, now);
            && |evals| == 3
            && (forall k :: 0 <= k < 3 ==> (evals[k].Satisfied() <==> k != j.OwnArm()))
            && evals[j.OwnArm()].field == j.Safe() && evals[j.OwnArm()].expected == YES
            && forall e :: e in evals ==> e.evidence.status == Known
  {
    hide Format, EpistemicValue, Motion, NoFault, Seen, Job.Contract, Evaluate;
    JobPreconditions(j);
    FlagSeen(j, s, now, 0, j.Enabled());
    FlagSeen(j, s, now, j.OwnArm(), j.Safe());
    FlagSeen(j, s, now, 3 - j.OwnArm(), j.OtherSafe());
  }

  /** A present flag is seen as it is. */
  lemma FlagSeen(j: Job, s: State, now: real, k: nat, field: string)
    requires k < 3 && |j.Contract().preconditions| == 3
    requires Format(j.Contract().preconditions[k].field, j.step.arguments) == field
    requires j.Contract().preconditions[k].expected == YES && j.Contract().preconditions[k].maxAge == MAX_AGE
    requires Seen(s, now) && Raw(s, field).Some?
    ensures Evaluate(j.Contract().preconditions[k], s, j.step.arguments, now) ==
            Evaluation(j.Contract().preconditions[k].code, field, YES, Evidence(Raw(s, field), Known))
  {
    hide Format, EpistemicValue, Seen, Job.Contract;
    SeenIsKnown(s, now, field);
  }

  /** Once both arms are in, the motion may start. */
  lemma MotionHolds(j: Job, s: State, now: real)
    requires Motion(j) && Seen(s, now) && Raw(s, j.Safe()) == Some(YES) && Raw(s, j.OtherSafe()) == Some(YES)
    requires Raw(s, j.Enabled()) == Some(YES)
    ensures PreconditionsHold(j.Contract(), s, j.step.arguments, now)
  {
    hide Format, EpistemicValue, ValidArgs;
    JobPreconditions(j);
    SeenIsKnown(s, now, j.Enabled());
    SeenIsKnown(s, now, j.Safe());
    SeenIsKnown(s, now, j.OtherSafe());
    var ps := j.Contract().preconditions;
    assert ps == [ps[0], ps[1], ps[2]];
  }

  /** After the arm is retracted in the projection. */
  lemma ArmIsIn(j: Job, s: State, now: real)
    requires Motion(j) && Seen(s, now) && ArmOut(j, s)
    ensures var t := Project(DEFAULTS, s, Retract(j));
            && Seen(t, now) && t == s.(vals := t.vals) && ArmsIn(j, t)
            && forall k :: k !in {j.Safe(), j.Ready()} ==> Raw(t, k) == Raw(s, k)
  {
    hide StepEffects, ValidArgs;
    RetractEffects(j, s);
    ArmNames(j);
    var t := Project(DEFAULTS, s, Retract(j));
    assert t.vals.Keys == s.vals.Keys;
    assert forall f :: StampOf(t, f) == StampOf(s, f);
  }

  /** The repaired plan: the arm first, then the motion. */
  predicate ArmThenMotion(j: Job, steps: seq<Step>) {
    && |steps| == 2
    && SameCall(steps[0], Retract(j)) && steps[0].expectedEffect == [(j.Safe(), YES)]
    && steps[0].parallelGroup.None? && steps[0].id == "repair_1_" + j.Safe()
    && steps[1] == j.step
  }

  /** Repair succeeds exactly when the limits allow one insertion, and puts the arm first. */
  lemma RepairPutsTheArmFirst(limits: Limits, now: real, plan: Plan, j: Job, s: State)
    requires plan.steps == [j.step] && plan.metadata.blocked == {}
    requires Motion(j) && Seen(s, now) && ArmOut(j, s)
    ensures var r := Repair(DEFAULTS, limits, now, plan, s, false);
            && (r.Some? <==> WithinLimits(limits, 1))
            && (r.Some? ==> ArmThenMotion(j, r.value.steps))
  {
    hide Repair, Chain, Open, StepHolds, Needs, ArmOut, Seen, ValidArgs;
    var c := RepairContext(DEFAULTS, limits, now, plan);
    ArmChainIsChain(c, j, s);
    MotionNeedsTheArm(c, j, s);
    ChainRepair(DEFAULTS, limits, now, plan, s, Side(j), ArmChain(j), j.step);
    var r := Repair(DEFAULTS, limits, now, plan, s, false);
    if r.Some? {
      var steps := r.value.steps;
      assert steps[..1][0] == steps[0];
      assert RepairOf(steps[0], ArmChain(j)[0], 1, j.Safe());
      assert Digits(1) == "1";
      assert "repair_" + "1" + "_" + j.Safe() == "repair_1_" + j.Safe();
      assert Ungrouped(j.step) == j.step;
    }
  }

  // ---- What the grounder says before and after ----------------------------------------------------------

  /** The capabilities, if grounding uses any, cover both skills and what they write. */
  predicate Permissive(j: Job, caps: Option<Capabilities>) {
    caps.Some? ==>
      var k := caps.value;
      && k.Supports("retract_arm") && k.SemanticsFor("retract_arm").None?
      && k.Supports(j.step.skill) && k.SemanticsFor(j.step.skill).None?
      && k.CanObserve(j.Safe()) && k.CanObserve(j.Ready()) && k.CanObserve(j.Field())
  }

  /** Those that a mock with clear sensors reports do. */
  lemma ReportedIsPermissive(j: Job, sensors: Sensors, semantics: seq<Semantics>, m: Hidden)
    requires Motion(j) && Clear(sensors) && forall sem :: sem in semantics ==> !Knows(DEFAULTS, sem.skill)
    ensures Permissive(j, Some(Reported(sensors, semantics, m)))
  {
    hide Lookup, ValidArgs;
    DefaultLookup("retract_arm");
    JobCallable(j);
    NoSemantics(semantics, "retract_arm");
    NoSemantics(semantics, j.step.skill);
  }

  lemma {:induction false} PreconditionIssueIds(id: string, evals: seq<Evaluation>)
    requires forall e :: e in evals ==> e.evidence.status == Known
    ensures forall i :: i in PreconditionIssues(id, evals) ==> i.stepId == id && i.knowledge == Some(Known)
  {
    if evals != [] { PreconditionIssueIds(id, evals[1..]); }
  }

  /** The issue is the step's own, and no fresh evidence could help. */
  predicate OwnAndKnown(i: Issue, id: string) { i.stepId == id && (i.knowledge.Some? ==> i.knowledge.value == Known) }

  lemma CheckableIssueIds(sk: Skill, caps: Option<Capabilities>, now: real, step: Step, sim: State)
    requires forall e :: e in EvaluatePreconditions(sk, sim, step.arguments, now) ==> e.evidence.status == Known
    ensures forall i :: i in CheckableIssues(sk, caps, now, step, sim) && i.repairable ==> OwnAndKnown(i, step.id)
  {
    hide EvaluatePreconditions, ExpectedEffects, PreconditionIssues, UnprojectableIssues, UnobservableIssues,
         ReasonIssues, DeclaredIssues, SemanticReasons;
    PreconditionIssueIds(step.id, EvaluatePreconditions(sk, sim, step.arguments, now));
  }

  lemma OneStepIssues(caps: Option<Capabilities>, now: real, plan: Plan, j: Job, s: State)
    requires plan.steps == [j.step] && Motion(j) && Seen(s, now) && ArmOut(j, s)
    ensures forall i :: i in Ground(DEFAULTS, caps, now, plan, s).issues && i.repairable ==>
              OwnAndKnown(i, j.step.id)
  {
    hide Lookup, ValidArgs, CheckableIssues, EvaluatePreconditions, Seen, ArmOut, OwnAndKnown;
    var step := j.step;
    JobCallable(j);
    MotionEvaluations(j, s, now);
    CheckableIssueIds(j.Contract(), caps, now, step, s);
    assert plan.steps[1..] == [] && plan.steps[..0] == [];
    assert GroupNames(plan.steps) == [];
    assert IssuesFrom(DEFAULTS, caps, now, [], {} + {step.id}, NextSim(DEFAULTS, caps, step, s)) == [];
    assert AllIssues(DEFAULTS, caps, now, plan, s) == StepIssues(DEFAULTS, caps, now, step, {}, s) + [] + [] + [];
  }

  lemma MotionIsNotHopeless(caps: Option<Capabilities>, j: Job, s: State)
    requires Motion(j) && Permissive(j, caps) && ArmOut(j, s)
    ensures !Hopeless(j.Contract(), caps, j.step, s)
  {
    hide ExpectedEffects, ValidArgs;
    JobEffects(j, s);
    JobTarget(j, s);
  }

  /** The plan as given: not grounded, but nothing that only stopping could answer. */
  lemma ArmOutReport(caps: Option<Capabilities>, now: real, plan: Plan, j: Job, s: State)
    requires plan.steps == [j.step] && Motion(j) && Permissive(j, caps) && Seen(s, now) && ArmOut(j, s)
    ensures var report := Ground(DEFAULTS, caps, now, plan, s);
            && !report.valid && !report.RequiresStop() && RepairPermitted(DEFAULTS, plan, report)
            && forall k :: ObservableFields(DEFAULTS, plan, report, k) == {}
  {
    hide Ground, Hopeless, Lookup, ValidArgs, ExpectedEffects, GroupAgrees, ArmOut, Seen;
    var steps, step := plan.steps, j.step;
    JobCallable(j);
    NotGroundedYet(caps, now, plan, j, s);
    MotionIsNotHopeless(caps, j, s);
    assert SimSkip(DEFAULTS, caps, steps, s, 0) == s && Ids(steps[..0]) == {};
    assert !BlocksAt(DEFAULTS, caps, steps, s, 0);
    assert GroupNames(steps) == [] by { assert steps[..0] == []; }
    RequiresStopExact(DEFAULTS, caps, now, plan, s);
    OneStepIssues(caps, now, plan, j, s);
    assert FindStep(steps, j.step.id) == Some(step);
    assert POLICY[1] == "repair";
  }

  lemma NotGroundedYet(caps: Option<Capabilities>, now: real, plan: Plan, j: Job, s: State)
    requires plan.steps == [j.step] && Motion(j) && Seen(s, now) && ArmOut(j, s)
    ensures !Ground(DEFAULTS, caps, now, plan, s).valid
  {
    hide Ground, Lookup, ValidArgs, ExpectedEffects, ArmOut, Seen, EpistemicValue, Format;
    JobCallable(j);
    MotionEvaluations(j, s, now);
    GroundExact(DEFAULTS, caps, now, plan, s);
    var p := j.Contract().preconditions[j.OwnArm()];
    assert p in j.Contract().preconditions;
    assert !Evaluate(p, s, j.step.arguments, now).Satisfied();
    assert SimAt(DEFAULTS, plan.steps, s, 0) == s;
    assert !StepGrounded(DEFAULTS, caps, now, plan.steps[0], s);
  }

  lemma RetractAccepted(caps: Capabilities, step: Step, j: Job, effects: Changes)
    requires Permissive(j, Some(caps)) && step.skill == "retract_arm"
    requires effects.Keys == {j.Safe(), j.Ready()}
    ensures BackendAccepts(caps, RETRACT_ARM, step, effects)
  {
  }

  lemma RetractGrounded(caps: Option<Capabilities>, now: real, step: Step, j: Job, s: State)
    requires Motion(j) && Permissive(j, caps) && Seen(s, now) && ArmOut(j, s)
    requires SameCall(step, Retract(j)) && step.expectedEffect == [(j.Safe(), YES)]
    ensures StepGrounded(DEFAULTS, caps, now, step, s)
  {
    hide Lookup, ValidArgs, ExpectedEffects, PreconditionsHold, Seen, BackendAccepts, Motion, Permissive, Unobstructed,
         ArmOut, Job.Safe, Job.Ready;
    DefaultLookup("retract_arm");
    ArmIsValid(j);
    assert Raw(s, j.Ready()) == Some(YES) && Unobstructed(RETRACT_ARM, s) by { ArmOutIsFree(j, s); }
    RetractHolds(j, s, now);
    RetractEffects(j, s);
    if caps.Some? { RetractAccepted(caps.value, step, j, StepEffects(DEFAULTS, Retract(j), s)); }
  }

  lemma ArmOutIsFree(j: Job, s: State)
    requires ArmOut(j, s)
    ensures Raw(s, j.Ready()) == Some(YES) && forall sk: Skill :: Unobstructed(sk, s)
  {
    hide NoFault;
  }

  lemma MotionGrounded(caps: Option<Capabilities>, now: real, j: Job, t: State)
    requires Motion(j) && Permissive(j, caps) && Seen(t, now) && ArmsIn(j, t)
    ensures StepGrounded(DEFAULTS, caps, now, j.step, t)
  {
    hide Lookup, ValidArgs, ExpectedEffects, PreconditionsHold, Seen;
    JobCallable(j);
    MotionHolds(j, t, now);
    JobEffects(j, t);
    JobTarget(j, t);
  }

  lemma MotionPlanGrounds(caps: Option<Capabilities>, now: real, plan: Plan, j: Job, t: State)
    requires plan.steps == [j.step] && Motion(j) && Permissive(j, caps) && Seen(t, now) && ArmsIn(j, t)
    ensures Ground(DEFAULTS, caps, now, plan, t).valid
  {
    hide Ground, StepGrounded, ValidArgs;
    MotionGrounded(caps, now, j, t);
    assert SimAt(DEFAULTS, plan.steps, t, 0) == t;
    GroundExact(DEFAULTS, caps, now, plan, t);
  }

  lemma ProjectsAlike(a: Step, b: Step, s: State)
    requires SameCall(a, b)
    ensures Project(DEFAULTS, s, a) == Project(DEFAULTS, s, b)
  {
  }

  /** The repaired plan is grounded. */
  lemma ArmThenMotionGrounds(caps: Option<Capabilities>, now: real, plan: Plan, j: Job, s: State)
    requires ArmThenMotion(j, plan.steps) && Motion(j) && Permissive(j, caps) && Seen(s, now) && ArmOut(j, s)
    ensures Ground(DEFAULTS, caps, now, plan, s).valid
  {
    hide Ground, StepGrounded, Project, Seen, Parallelizable, ValidArgs, ArmsIn;
    var steps := plan.steps;
    var t := Project(DEFAULTS, s, Retract(j));
    RetractGrounded(caps, now, steps[0], j, s);
    ProjectsAlike(steps[0], Retract(j), s);
    ArmIsIn(j, s, now);
    MotionGrounded(caps, now, j, t);
    assert SimAt(DEFAULTS, steps, s, 0) == s && SimAt(DEFAULTS, steps, s, 1) == t;
    assert steps[0].id != steps[1].id by { assert "repair_" <= steps[0].id; }
    assert EachStepGrounded(DEFAULTS, caps, now, steps, s);
    assert GroupsParallelizable(DEFAULTS, steps, s);
    GroundExact(DEFAULTS, caps, now, plan, s);
  }

  // ---- The run --------------------------------------------------------------------------------------------

  /** Whatever the clock is read for, it is read within the age limit. */
  ghost predicate Prompted(timing: Timing) {
    && (forall log, e, reading :: timing.clock(log + [e], reading) - timing.stamp(log) <= 5.0)
    && (forall log :: timing.elapsed(log) <= 10.0)
  }

  /** A look at a world with clear sensors shows it as it is, in age for every reading. */
  lemma LookShows(sensors: Sensors, m: Hidden, timing: Timing, log: Log, last: Option<string>, reading: Reading)
    requires Clear(sensors) && m.world.observedAt == map[] && Prompted(timing)
    ensures var s := Overlay(Observe(sensors, m, At(timing.stamp(log))), last);
            && Seen(s, timing.clock(log + [Observed(s)], reading))
            && s.active == m.world.active && forall k :: k != LAST_RESULT ==> Raw(s, k) == Raw(m.world, k)
  {
    hide Observe;
    var o := Observe(sensors, m, At(timing.stamp(log)));
    var s := Overlay(o, last);
    ClearLook(sensors, m, At(timing.stamp(log)));
    OverlayStamps(o, last);
    var now := timing.clock(log + [Observed(s)], reading);
    assert forall k :: Raw(o, k) == Raw(m.world, k);
    forall f | f in s.vals ensures InAge(StampOf(s, f), MAX_AGE, now) {
      assert StampOf(o, f) == At(timing.stamp(log));
    }
  }

  lemma SameForMotion(j: Job, w: State, s: State)
    requires s.active == w.active && forall k :: k != LAST_RESULT ==> Raw(s, k) == Raw(w, k)
    ensures (ArmOut(j, s) <==> ArmOut(j, w)) && (ArmsIn(j, s) <==> ArmsIn(j, w))
  {
  }

  lemma FirstLookShows(config: Config, flags: Flags, sensors: Sensors, m: Hidden, timing: Timing,
                       caps: Capabilities, j: Job, reading: Reading)
    requires Clear(sensors) && Undisturbed(m) && Prompted(timing) && ArmOut(j, m.world)
    ensures var x := ClearMock(config, flags, sensors, m, timing, caps);
            var s := FirstLook(x, []);
            Seen(s, x.backend.clock([Observed(s)], reading)) && ArmOut(j, s)
  {
    hide Observe, Orderly, ArmOut;
    var x := ClearMock(config, flags, sensors, m, timing, caps);
    var s := FirstLook(x, []);
    assert HiddenAfter(sensors, m, []) == m;
    LookShows(sensors, m, timing, [], None, reading);
    SameForMotion(j, m.world, s);
    var none: Log := [];
    assert none + [Observed(s)] == [Observed(s)];
  }

  /** The mock with the capabilities it reports. */
  function ReportingMock(config: Config, flags: Flags, sensors: Sensors, semantics: seq<Semantics>, m: Hidden,
                         timing: Timing): Setup {
    ClearMock(config, flags, sensors, m, timing, Reported(sensors, semantics, m))
  }

  /** Preflight. The plan as given is not grounded, but its report requires no stop; nothing is
      acquired; and exactly when repair is allowed and its limits admit one insertion, the
      plan is launched as retract, then move. */
  lemma PreflightRepairs(config: Config, flags: Flags, sensors: Sensors, semantics: seq<Semantics>, m: Hidden,
                         timing: Timing, j: Job)
    requires Clear(sensors) && Undisturbed(m) && Prompted(timing) && Motion(j) && ArmOut(j, m.world)
    requires forall sem :: sem in semantics ==> !Knows(DEFAULTS, sem.skill)
    requires flags.groundPlan
    ensures var x := ReportingMock(config, flags, sensors, semantics, m, timing);
            var s := FirstLook(x, []);
            var log: Log := [Observed(s)];
            var report := Ground(DEFAULTS, x.Caps(), x.backend.clock(log, ForGround),
                                 WithGoalState(DEFAULTS, JobPlan(j), s), s);
            var c := Start(x, JobPlan(j), [], None);
            && !report.valid && !report.RequiresStop() && c.log == log
            && (c.mode.Outer? <==> flags.allowRepair && WithinLimits(config.limits, 1))
            && (c.mode.Outer? ==> ArmThenMotion(j, c.plan.steps))
  {
    hide Ground, Repair, Observe, GoalFold, Seen, ArmOut, ArmThenMotion, Undisturbed, Clear, Motion,
         RepairPermitted, Report.RequiresStop, Reported;
    var caps := Reported(sensors, semantics, m);
    var x := ReportingMock(config, flags, sensors, semantics, m, timing);
    var s := FirstLook(x, []);
    var log: Log := [Observed(s)];
    var plan := WithGoalState(DEFAULTS, JobPlan(j), s);
    ReportedIsPermissive(j, sensors, semantics, m);
    FirstLookShows(config, flags, sensors, m, timing, caps, j, ForGround);
    FirstLookShows(config, flags, sensors, m, timing, caps, j, ForRepair);
    FirstLookShows(config, flags, sensors, m, timing, caps, j, ForReground);
    ArmOutReport(x.Caps(), x.backend.clock(log, ForGround), plan, j, s);
    RepairPutsTheArmFirst(config.limits, x.backend.clock(log, ForRepair), plan, j, s);
    var r := Repair(DEFAULTS, config.limits, x.backend.clock(log, ForRepair), plan, s, false);
    if r.Some? { ArmThenMotionGrounds(x.Caps(), x.backend.clock(log, ForReground), r.value, j, s); }
    var c := Begin(JobPlan(j), [], None);
    assert Look(x, c) == s;
    var c1 := Saw(c, s).(plan := plan);
    assert c1.log == log;
    var report := Ground(DEFAULTS, x.Caps(), x.backend.clock(log, ForGround), plan, s);
    assert ObservableFields(DEFAULTS, plan, report, caps) == {};
    assert Start(x, JobPlan(j), [], None) == PreflightEnd(x, c1, s, report);
  }

  lemma MotionPredicts(j: Job, t: State)
    requires Motion(j)
    ensures StepEffects(DEFAULTS, j.step, t) == map[j.Field() := j.Target(t)]
  {
    hide Lookup, ExpectedEffects, ValidArgs;
    JobCallable(j);
    JobEffects(j, t);
  }

  lemma WorldAfterBoth(w: State, j: Job, steps: seq<Step>)
    requires ArmThenMotion(j, steps) && Motion(j)
    ensures var t := SimAt(DEFAULTS, steps, w, 2);
            && Raw(t, j.Safe()) == Some(YES) && Raw(t, j.Field()) == j.Target(w)
            && forall k :: k !in {j.Safe(), j.Ready(), j.Field()} ==> Raw(t, k) == Raw(w, k)
  {
    hide StepEffects, Motion, Job.Target, Copy;
    var t := SimAt(DEFAULTS, steps, w, 1);
    assert t == Project(DEFAULTS, w, Retract(j)) by {
      ProjectsAlike(steps[0], Retract(j), w);
      assert SimAt(DEFAULTS, steps, w, 0) == w;
    }
    RetractEffects(j, w);
    FieldsApart(j);
    MotionPredicts(j, t);
    TargetStays(j, w, t);
  }

  lemma FieldsApart(j: Job)
    requires Motion(j)
    ensures j.Field() != j.Safe() && j.Field() != j.Ready()
  {
    ArmNames(j);
  }

  lemma TargetStays(j: Job, w: State, t: State)
    requires Raw(t, j.Field()) == Raw(w, j.Field())
    ensures j.Target(t) == j.Target(w)
  {
    LiteralFormat(j.Field(), j.step.arguments);
  }

  lemma TwoCalls(j: Job, steps: seq<Step>)
    requires ArmThenMotion(j, steps)
    ensures Calls(steps) == [("retract_arm", ArmArgs(j.arm)), (j.step.skill, j.step.arguments)]
  {
  }

  /** Ask the mock to move its base or its lift while one arm is out. Preflight repairs the plan
      by retracting that arm first; the run succeeds with exactly those two commands; and in
      the hidden world the arm is in, the motion has reached its target, and nothing else has
      changed but the readiness of that arm. */
  lemma ArmGoesFirst(config: Config, flags: Flags, sensors: Sensors, semantics: seq<Semantics>, m: Hidden,
                     timing: Timing, j: Job)
    requires Clear(sensors) && Undisturbed(m) && Prompted(timing) && Motion(j) && ArmOut(j, m.world)
    requires forall sem :: sem in semantics ==> !Knows(DEFAULTS, sem.skill)
    requires flags.groundPlan && flags.allowRepair && WithinLimits(config.limits, 1)
    ensures var x := ReportingMock(config, flags, sensors, semantics, m, timing);
            var c := After(x, JobPlan(j), [], None, 5);
            var world := HiddenAfter(sensors, m, After(x, JobPlan(j), [], None, 4).log).world;
            && c.mode == Final(true)
            && Sent(0, c.log) == [("retract_arm", ArmArgs(j.arm)), (j.step.skill, j.step.arguments)]
            && Raw(world, j.Safe()) == Some(YES) && Raw(world, j.Field()) == j.Target(m.world)
            && forall k :: k !in {j.Safe(), j.Ready(), j.Field()} ==> Raw(world, k) == Raw(m.world, k)
  {
    hide Ground, Repair, Start, After, Sent, HiddenAfter, SimAt, Undisturbed, Clear, ArmOut, ArmThenMotion, Calls,
         Motion;
    var x := ReportingMock(config, flags, sensors, semantics, m, timing);
    var plan := JobPlan(j);
    PreflightRepairs(config, flags, sensors, semantics, m, timing, j);
    var steps := Start(x, plan, [], None).plan.steps;
    assert |steps| == 2 by { ArmIsTwoSteps(j, steps); }
    LaunchMovesTheMock(config, flags, sensors, m, timing, Reported(sensors, semantics, m), plan);
    TwoCalls(j, steps);
    WorldAfterBoth(m.world, j, steps);
    var world := HiddenAfter(sensors, m, After(x, plan, [], None, 2 * 2).log).world;
    assert forall k :: Raw(world, k) == Raw(SimAt(DEFAULTS, steps, m.world, 2), k);
  }

  lemma ArmIsTwoSteps(j: Job, steps: seq<Step>)
    requires ArmThenMotion(j, steps)
    ensures |steps| == 2
  {
  }

  /** The new mock with that arm extended is such a world. */
  lemma ExtendedArmIsOut(j: Job)
    requires Motion(j)
    ensures var w := Copy(INITIAL_WORLD, map[j.Safe() := Some(Bool(false))]);
            ArmOut(j, w) && Undisturbed(Hidden(w, map[], map[], map[]))
  {
    hide Copy, ValidArgs;
    var w := Copy(INITIAL_WORLD, map[j.Safe() := Some(Bool(false))]);
    NewWorldIsReady(j);
    ArmNames(j);
    assert forall k :: k != j.Safe() ==> Raw(w, k) == Raw(INITIAL_WORLD, k);
    assert Orderly(w);
  }

  lemma NewWorldIsReady(j: Job)
    requires Motion(j)
    ensures ArmsIn(j, INITIAL_WORLD) && Orderly(INITIAL_WORLD)
  {
    hide ValidArgs, NoFault;
    var w := INITIAL_WORLD;
    NewMockIsUndisturbed();
    assert Raw(w, LEFT_SAFE) == Some(YES) && Raw(w, RIGHT_SAFE) == Some(YES);
    assert Raw(w, LEFT_READY) == Some(YES) && Raw(w, RIGHT_READY) == Some(YES);
    assert Raw(w, "lift_ready") == Some(YES) && Raw(w, "agv_ready") == Some(YES);
    assert Raw(w, POSITION) == Some(Float(0.0));
    assert NoFault(w) by { assert Raw(w, FAULT) == None; NoneIsNoFault(w); }
  }

  lemma NoneIsNoFault(w: State)
    requires Raw(w, FAULT) == None
    ensures NoFault(w)
  {
  }
}
