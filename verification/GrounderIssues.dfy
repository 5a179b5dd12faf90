/** What a grounding report contains, issue by issue, and which fields it asks fresh evidence for. */
module GrounderIssues {
  import opened Values
  import opened RobotState
  import opened Templates
  import opened Skills
  import opened Registry
  import opened Capability
  import opened Grounder
  import opened GrounderSpec
  import opened GrounderStops
  import opened Executor

  // ---- Where an issue comes from -----------------------------------------------------------------

  predicate OfStep(reg: Skillset, caps: Option<Capabilities>, now: real, steps: seq<Step>, s: State, k: nat, i: Issue)
    requires k < |steps|
  {
    i in StepIssues(reg, caps, now, steps[k], Ids(steps[..k]), SimSkip(reg, caps, steps, s, k))
  }

  lemma {:induction false} IssuesFromSteps(reg: Skillset, caps: Option<Capabilities>, now: real, steps: seq<Step>,
                                           s: State, k: nat, i: Issue)
    requires k <= |steps|
    ensures i in IssuesFrom(reg, caps, now, steps[k..], Ids(steps[..k]), SimSkip(reg, caps, steps, s, k)) <==>
            exists j :: k <= j < |steps| && OfStep(reg, caps, now, steps, s, j, i)
    decreases |steps| - k
  {
    hide StepIssues, NextSim, SimSkip;
    if k < |steps| {
      SimSkipNext(reg, caps, steps, s, k);
      assert steps[k..][0] == steps[k] && steps[k..][1..] == steps[k + 1..];
      assert Ids(steps[..k + 1]) == Ids(steps[..k]) + {steps[k].id} by {
        assert steps[..k + 1] == steps[..k] + [steps[k]];
      }
      IssuesFromSteps(reg, caps, now, steps, s, k + 1, i);
      assert OfStep(reg, caps, now, steps, s, k, i) <==>
             i in StepIssues(reg, caps, now, steps[k], Ids(steps[..k]), SimSkip(reg, caps, steps, s, k));
    }
  }

  lemma {:induction false} ResourceIssueCodes(reg: Skillset, members: seq<Step>, used: set<string>, prior: seq<Skill>)
    ensures forall i :: i in ResourceIssues(reg, members, used, prior) ==>
              (i.code == ParallelResource || i.code == BodyConflict) && i.knowledge.None?
    decreases |members|
  {
    if members != [] {
      match Lookup(reg, members[0].skill)
      case None => ResourceIssueCodes(reg, members[1..], used, prior);
      case Some(sk) => ResourceIssueCodes(reg, members[1..], used + sk.resources, prior + [sk]);
    }
  }

  lemma {:induction false} ParallelIssueCodes(reg: Skillset, steps: seq<Step>, groups: seq<string>)
    ensures forall i :: i in ParallelIssues(reg, steps, groups) ==>
              (i.code == ParallelResource || i.code == BodyConflict) && i.knowledge.None?
  {
    if groups != [] {
      ResourceIssueCodes(reg, Members(steps, groups[0]), {}, []);
      ParallelIssueCodes(reg, steps, groups[1..]);
    }
  }

  lemma {:induction false} EffectConflictCodes(reg: Skillset, members: seq<Step>, s: State, byField: Changes)
    ensures forall i :: i in EffectConflicts(reg, members, s, byField) ==>
              i.code == ParallelEffect && i.knowledge.None?
    decreases |members|
  {
    if members != [] {
      if !Predictable(reg, members[0], s) {
        EffectConflictCodes(reg, members[1..], s, byField);
      } else {
        EffectConflictCodes(reg, members[1..], s, Record(byField, StepEffects(reg, members[0], s)));
      }
    }
  }

  lemma {:induction false} ParallelEffectCodes(reg: Skillset, steps: seq<Step>, s: State, groups: seq<string>)
    ensures forall i :: i in ParallelEffectIssues(reg, steps, s, groups) ==>
              i.code == ParallelEffect && i.knowledge.None?
  {
    if groups != [] {
      EffectConflictCodes(reg, Members(steps, groups[0]), s, map[]);
      ParallelEffectCodes(reg, steps, s, groups[1..]);
    }
  }

  /** An issue of one of these kinds is an issue of a step. */
  predicate Single(code: Code) { code != ParallelResource && code != BodyConflict && code != ParallelEffect }

  lemma ReportedByStep(reg: Skillset, caps: Option<Capabilities>, now: real, plan: Plan, s: State, i: Issue)
    requires Single(i.code)
    ensures i in Ground(reg, caps, now, plan, s).issues <==>
            exists k :: 0 <= k < |plan.steps| && OfStep(reg, caps, now, plan.steps, s, k, i)
  {
    hide OfStep;
    var steps, groups := plan.steps, GroupNames(plan.steps);
    ParallelIssueCodes(reg, steps, groups);
    ParallelEffectCodes(reg, steps, s, groups);
    assert steps[0..] == steps && Ids(steps[..0]) == {};
    IssuesFromSteps(reg, caps, now, steps, s, 0, i);
  }

  // ---- Preconditions and constraints ----------------------------------------------------------------

  lemma {:induction false} PreconditionIssuesExact(id: string, evals: seq<Evaluation>, i: Issue)
    ensures i in PreconditionIssues(id, evals) <==>
            exists e :: e in evals && !e.Satisfied() &&
              i == Issue(PreconditionFailed(e.code), id, "", true, Some(e.field), Some(e.evidence.status))
  {
    if evals != [] {
      PreconditionIssuesExact(id, evals[1..], i);
      assert evals == [evals[0]] + evals[1..];
    }
  }

  /** The issue of an unsatisfied precondition: its code, the step, the field as the call names
      it, and what is known of that field. */
  predicate Unmet(step: Step, p: Predicate, sim: State, now: real, i: Issue) {
    var field := Format(p.field, step.arguments);
    var e := EpistemicValue(sim, field, p.maxAge, now);
    && !(e.status == Known && OptEq(e.value, Some(p.expected)))
    && i == Issue(PreconditionFailed(p.code), step.id, "", true, Some(field), Some(e.status))
  }

  lemma UnmetExact(sk: Skill, step: Step, sim: State, now: real, i: Issue)
    ensures i in PreconditionIssues(step.id, EvaluatePreconditions(sk, sim, step.arguments, now)) <==>
            exists p :: p in sk.preconditions && Unmet(step, p, sim, now, i)
  {
    hide EpistemicValue;
    var evals := EvaluatePreconditions(sk, sim, step.arguments, now);
    PreconditionIssuesExact(step.id, evals, i);
    if p :| p in sk.preconditions && Unmet(step, p, sim, now, i) {
      var k :| 0 <= k < |sk.preconditions| && sk.preconditions[k] == p;
      assert evals[k] in evals;
    }
    if e :| e in evals && !e.Satisfied() &&
            i == Issue(PreconditionFailed(e.code), step.id, "", true, Some(e.field), Some(e.evidence.status)) {
      var k :| 0 <= k < |evals| && evals[k] == e;
      assert sk.preconditions[k] in sk.preconditions;
      assert Unmet(step, sk.preconditions[k], sim, now, i);
    }
  }

  lemma PreconditionCodes(id: string, evals: seq<Evaluation>)
    ensures forall i :: i in PreconditionIssues(id, evals) ==> i.code.PreconditionFailed?
  {
    forall i | i in PreconditionIssues(id, evals) ensures i.code.PreconditionFailed? {
      PreconditionIssuesExact(id, evals, i);
    }
  }

  predicate Constraint(code: Code) { code == EmergencyStop || code == RobotFault || code == ResourceBusy }

  /** The violated constraints of a step: stopping and faults are beyond repair. */
  predicate Violated(sk: Skill, step: Step, sim: State, i: Issue) {
    || (i == Stopper(EmergencyStop, step.id, "") && Raw(sim, EMERGENCY) == Some(Bool(true)))
    || (i == Stopper(RobotFault, step.id, "") && !NoFault(sim))
    || (i == Issue(ResourceBusy, step.id, "", true, None, None) && exists r :: r in sim.active && r in sk.resources)
  }

  lemma ViolatedExact(sk: Skill, step: Step, sim: State, i: Issue)
    ensures i in CheckStep(step.id, sk, sim) <==> Violated(sk, step, sim, i)
    ensures i in CheckStep(step.id, sk, sim) ==> Constraint(i.code)
  {
    var shared := sim.active * sk.resources;
    assert forall r :: r in shared <==> r in sim.active && r in sk.resources;
    assert shared != {} <==> exists r :: r in shared;
  }

  /** The three kinds of issue among those of one checkable step. */
  lemma StepIssueKinds(reg: Skillset, caps: Option<Capabilities>, now: real, step: Step, seen: set<string>,
                       sim: State, i: Issue)
    requires i.code.PreconditionFailed? || Constraint(i.code)
    ensures i in StepIssues(reg, caps, now, step, seen, sim) <==>
            Checkable(reg, caps, step) &&
            var sk := Lookup(reg, step.skill).value;
            (exists p :: p in sk.preconditions && Unmet(step, p, sim, now, i)) || Violated(sk, step, sim, i)
  {
    hide EvaluatePreconditions, ExpectedEffects, Unmet, Violated, PreconditionIssues, CheckStep, UnprojectableIssues,
         ReasonIssues, UnobservableIssues, DeclaredIssues, SemanticReasons, ValidArgs;
    if Checkable(reg, caps, step) {
      var sk := Lookup(reg, step.skill).value;
      var evals := EvaluatePreconditions(sk, sim, step.arguments, now);
      PreconditionCodes(step.id, evals);
      UnmetExact(sk, step, sim, now, i);
      ViolatedExact(sk, step, sim, i);
    }
  }

  /** The report names exactly the unsatisfied preconditions and violated constraints of the
      checkable steps, each on the state simulated before it. */
  lemma ReportExact(reg: Skillset, caps: Option<Capabilities>, now: real, plan: Plan, s: State, i: Issue)
    requires i.code.PreconditionFailed? || Constraint(i.code)
    ensures i in Ground(reg, caps, now, plan, s).issues <==>
            exists k :: 0 <= k < |plan.steps| && Checkable(reg, caps, plan.steps[k]) &&
              var (step, sim) := (plan.steps[k], SimSkip(reg, caps, plan.steps, s, k));
              var sk := Lookup(reg, step.skill).value;
              (exists p :: p in sk.preconditions && Unmet(step, p, sim, now, i)) || Violated(sk, step, sim, i)
  {
    hide Ground, StepIssues, SimSkip, Unmet, Violated;
    ReportedByStep(reg, caps, now, plan, s, i);
    forall k | 0 <= k < |plan.steps|
      ensures OfStep(reg, caps, now, plan.steps, s, k, i) <==>
              Checkable(reg, caps, plan.steps[k]) &&
              var (step, sim) := (plan.steps[k], SimSkip(reg, caps, plan.steps, s, k));
              var sk := Lookup(reg, step.skill).value;
              (exists p :: p in sk.preconditions && Unmet(step, p, sim, now, i)) || Violated(sk, step, sim, i)
    {
      StepIssueKinds(reg, caps, now, plan.steps[k], Ids(plan.steps[..k]), SimSkip(reg, caps, plan.steps, s, k), i);
    }
  }

  // ---- Faults ---------------------------------------------------------------------------------------

  /** A reported fault, any text but the empty one, keeps the guard closed for every call. */
  lemma FaultClosesGuard(sk: Skill, step: Step, s: State, now: real, text: string)
    requires Raw(s, FAULT) == Some(Str(text)) && text != ""
    ensures !GuardAllows(sk, step, s, now)
  {
    CheckStepExact(step.id, sk, s);
  }

  /** ... and every plan with a step invalid beyond repair. */
  lemma FaultStopsPlans(reg: Skillset, caps: Option<Capabilities>, now: real, plan: Plan, s: State, text: string)
    requires Raw(s, FAULT) == Some(Str(text)) && text != "" && plan.steps != []
    ensures var report := Ground(reg, caps, now, plan, s);
            !report.valid && report.RequiresStop()
  {
    hide Ground;
    var steps := plan.steps;
    assert SimSkip(reg, caps, steps, s, 0) == s;
    assert BlocksAt(reg, caps, steps, s, 0);
    RequiresStopExact(reg, caps, now, plan, s);
    ValidHasNoIssue(reg, caps, now, plan, s);
  }

  lemma ValidHasNoIssue(reg: Skillset, caps: Option<Capabilities>, now: real, plan: Plan, s: State)
    ensures Ground(reg, caps, now, plan, s).valid <==> Ground(reg, caps, now, plan, s).issues == []
  {
  }

  /** No fault, or an empty text, is no obstacle: the guard looks at preconditions, the emergency
      stop and resources only, and a step run on such a state draws no fault issue. */
  lemma NoFaultIsNoObstacle(sk: Skill, step: Step, s: State, now: real)
    requires Raw(s, FAULT) == None || Raw(s, FAULT) == Some(Str(""))
    ensures GuardAllows(sk, step, s, now) <==>
            && PreconditionsHold(sk, s, step.arguments, now)
            && Raw(s, EMERGENCY) != Some(Bool(true))
            && forall r :: r in s.active ==> r !in sk.resources
    ensures forall i :: i in CheckStep(step.id, sk, s) ==> i.code != RobotFault
  {
    CheckStepExact(step.id, sk, s);
    var shared := s.active * sk.resources;
    assert forall r :: r in shared <==> r in s.active && r in sk.resources;
    assert shared == {} <==> !exists r :: r in shared;
  }

  // ---- Fields worth asking for ------------------------------------------------------------------------

  /** The first step with that id has a contract whose policy lists the action. */
  predicate Permits(reg: Skillset, steps: seq<Step>, id: string, action: string) {
    exists j :: 0 <= j < |steps| && FirstWith(steps, id, j) && Knows(reg, steps[j].skill) &&
                action in Lookup(reg, steps[j].skill).value.policy
  }

  predicate FirstWith(steps: seq<Step>, id: string, j: nat)
    requires j < |steps|
  {
    steps[j].id == id && forall h :: 0 <= h < j ==> steps[h].id != id
  }

  lemma {:induction false} FindStepExact(steps: seq<Step>, id: string)
    ensures match FindStep(steps, id)
            case None => forall j :: 0 <= j < |steps| ==> steps[j].id != id
            case Some(step) => exists j :: 0 <= j < |steps| && FirstWith(steps, id, j) && steps[j] == step
  {
    if steps != [] {
      if steps[0].id == id {
        assert FirstWith(steps, id, 0);
      } else {
        FindStepExact(steps[1..], id);
        if FindStep(steps, id).Some? {
          var j :| 0 <= j < |steps| - 1 && FirstWith(steps[1..], id, j) && steps[1..][j] == FindStep(steps, id).value;
          assert forall h :: 0 < h <= j ==> steps[h] == steps[1..][h - 1];
          assert FirstWith(steps, id, j + 1);
        } else {
          assert forall j :: 0 < j < |steps| ==> steps[j] == steps[1..][j - 1];
        }
      }
    }
  }

  lemma PolicyExact(reg: Skillset, plan: Plan, id: string, action: string)
    ensures action in PolicyForIssue(reg, plan, id) <==> Permits(reg, plan.steps, id, action)
  {
    hide FindStep;
    FindStepExact(plan.steps, id);
    var found := FindStep(plan.steps, id);
    if Permits(reg, plan.steps, id, action) {
      var j :| 0 <= j < |plan.steps| && FirstWith(plan.steps, id, j) && Knows(reg, plan.steps[j].skill) &&
               action in Lookup(reg, plan.steps[j].skill).value.policy;
      var k :| 0 <= k < |plan.steps| && FirstWith(plan.steps, id, k) && plan.steps[k] == found.value;
      assert j == k;
    }
  }

  /** Of the field, step `k` needs a value that is unknown, stale or contradictory where it would
      run, the backend can refresh it, and the contract lets the step wait for it. */
  ghost predicate Wanting(reg: Skillset, caps: Option<Capabilities>, now: real, steps: seq<Step>, s: State, k: nat,
                          field: string)
    requires k < |steps|
  {
    Checkable(reg, caps, steps[k]) && Permits(reg, steps, steps[k].id, "observe") &&
    exists p :: p in Lookup(reg, steps[k].skill).value.preconditions && Format(p.field, steps[k].arguments) == field &&
                EpistemicValue(SimSkip(reg, caps, steps, s, k), field, p.maxAge, now).status != Known
  }

  lemma KnowledgeIsOfPreconditions(reg: Skillset, caps: Option<Capabilities>, now: real, plan: Plan, s: State, i: Issue)
    requires i in Ground(reg, caps, now, plan, s).issues && i.knowledge.Some?
    ensures i.code.PreconditionFailed?
  {
    hide StepIssues, Ground;
    var steps, groups := plan.steps, GroupNames(plan.steps);
    assert i in AllIssues(reg, caps, now, plan, s) by { IssuesAreAll(reg, caps, now, plan, s, i); }
    ParallelIssueCodes(reg, steps, groups);
    ParallelEffectCodes(reg, steps, s, groups);
    assert steps[0..] == steps && Ids(steps[..0]) == {};
    IssuesFromSteps(reg, caps, now, steps, s, 0, i);
    var k :| 0 <= k < |steps| && OfStep(reg, caps, now, steps, s, k, i);
    StepKnowledge(reg, caps, now, steps[k], Ids(steps[..k]), SimSkip(reg, caps, steps, s, k), i);
  }

  lemma IssuesAreAll(reg: Skillset, caps: Option<Capabilities>, now: real, plan: Plan, s: State, i: Issue)
    ensures i in Ground(reg, caps, now, plan, s).issues <==> i in AllIssues(reg, caps, now, plan, s)
  {
  }

  lemma StepKnowledge(reg: Skillset, caps: Option<Capabilities>, now: real, step: Step, seen: set<string>,
                      sim: State, i: Issue)
    requires i in StepIssues(reg, caps, now, step, seen, sim) && i.knowledge.Some?
    ensures i.code.PreconditionFailed?
  {
    hide EvaluatePreconditions, ExpectedEffects, PreconditionIssues, UnprojectableIssues, ReasonIssues,
         UnobservableIssues, DeclaredIssues, SemanticReasons, ValidArgs;
    if Checkable(reg, caps, step) {
      var sk := Lookup(reg, step.skill).value;
      PreconditionCodes(step.id, EvaluatePreconditions(sk, sim, step.arguments, now));
    }
  }

  /** The fields for which fresh evidence is asked are exactly the wanting ones that the backend
      can refresh. */
  lemma AskedExactly(reg: Skillset, caps: Option<Capabilities>, now: real, plan: Plan, s: State, source: Capabilities,
                     field: string)
    ensures field in ObservableFields(reg, plan, Ground(reg, caps, now, plan, s), source) <==>
            field != "" && field in source.refreshable &&
            exists k :: 0 <= k < |plan.steps| && Wanting(reg, caps, now, plan.steps, s, k, field)
  {
    hide Ground, Checkable, Permits, PolicyForIssue, EpistemicValue, SimSkip, OptEq, Violated;
    var report := Ground(reg, caps, now, plan, s);
    if field in ObservableFields(reg, plan, report, source) {
      var i :| i in report.issues && Observable(reg, plan, source, i) && i.field.value == field;
      KnowledgeIsOfPreconditions(reg, caps, now, plan, s, i);
      AskedWants(reg, caps, now, plan, s, i, field);
    }
    if field != "" && field in source.refreshable {
      if k :| 0 <= k < |plan.steps| && Wanting(reg, caps, now, plan.steps, s, k, field) {
        var i := WantingIsReported(reg, caps, now, plan, s, k, field);
        assert Observable(reg, plan, source, i);
      }
    }
  }

  lemma AskedWants(reg: Skillset, caps: Option<Capabilities>, now: real, plan: Plan, s: State, i: Issue, field: string)
    requires i in Ground(reg, caps, now, plan, s).issues && i.code.PreconditionFailed?
    requires i.field == Some(field) && i.knowledge.Some? && i.knowledge.value != Known
    requires "observe" in PolicyForIssue(reg, plan, i.stepId)
    ensures exists k :: 0 <= k < |plan.steps| && Wanting(reg, caps, now, plan.steps, s, k, field)
  {
    hide Ground, ValidArgs, Permits, PolicyForIssue, EpistemicValue, SimSkip, OptEq;
    ReportExact(reg, caps, now, plan, s, i);
    var k :| 0 <= k < |plan.steps| && Checkable(reg, caps, plan.steps[k]) &&
             exists p :: p in Lookup(reg, plan.steps[k].skill).value.preconditions &&
                         Unmet(plan.steps[k], p, SimSkip(reg, caps, plan.steps, s, k), now, i);
    PolicyExact(reg, plan, i.stepId, "observe");
    assert Wanting(reg, caps, now, plan.steps, s, k, field);
  }

  lemma WantingIsReported(reg: Skillset, caps: Option<Capabilities>, now: real, plan: Plan, s: State, k: nat,
                          field: string)
    returns (i: Issue)
    requires k < |plan.steps| && Wanting(reg, caps, now, plan.steps, s, k, field)
    ensures i in Ground(reg, caps, now, plan, s).issues && i.field == Some(field)
    ensures i.knowledge.Some? && i.knowledge.value != Known && "observe" in PolicyForIssue(reg, plan, i.stepId)
  {
    hide Ground, ValidArgs, Permits, PolicyForIssue, EpistemicValue, SimSkip, OptEq;
    var step, sim := plan.steps[k], SimSkip(reg, caps, plan.steps, s, k);
    var p :| p in Lookup(reg, step.skill).value.preconditions && Format(p.field, step.arguments) == field &&
             EpistemicValue(sim, field, p.maxAge, now).status != Known;
    i := Issue(PreconditionFailed(p.code), step.id, "", true, Some(field),
               Some(EpistemicValue(sim, field, p.maxAge, now).status));
    assert Unmet(step, p, sim, now, i);
    ReportExact(reg, caps, now, plan, s, i);
    PolicyExact(reg, plan, step.id, "observe");
  }
}
