/** Plan grounding and constraint checking
    (`grounding/plan_grounder.py`, `grounding/constraint_checker.py`). */
module Grounder {
  import opened Values
  import opened RobotState
  import opened Templates
  import opened Skills
  import opened Registry
  import opened Capability

  datatype Code =
    | DuplicateStepId | UnknownSkill | Unsupported | InvalidArguments
    | PreconditionFailed(name: string)
    | EmergencyStop | RobotFault | ResourceBusy
    | Unprojectable | SemanticMismatch | Unobservable
    | UnverifiableEffect | EffectMismatch
    | ParallelResource | BodyConflict | ParallelEffect

  /** `detail` stands for the variable part of the message. */
  datatype Issue = Issue(code: Code, stepId: string, detail: string, repairable: bool,
                         field: Option<string>, knowledge: Option<Status>)

  datatype Report = Report(valid: bool, issues: seq<Issue>)
  {
    predicate RequiresStop() { exists i :: i in issues && !i.repairable }
  }

  function Stopper(code: Code, id: string, detail: string): Issue {
    Issue(code, id, detail, false, None, None)
  }

  // ---- Issues of one step ------------------------------------------------------------------

  function CheckStep(id: string, sk: Skill, s: State): seq<Issue> {
    (if Raw(s, EMERGENCY) == Some(Bool(true)) then [Stopper(EmergencyStop, id, "")] else []) +
    (if Truthy(Raw(s, FAULT)) then [Stopper(RobotFault, id, "")] else []) +
    (if s.active * sk.resources != {} then [Issue(ResourceBusy, id, "", true, None, None)] else [])
  }

  /** No fault is reported: none, or an empty text, or a zero in its place. */
  predicate NoFault(s: State) {
    match Raw(s, FAULT)
    case None => true
    case Some(Str(text)) => text == ""
    case Some(Bool(b)) => !b
    case Some(Int(i)) => i == 0
    case Some(Float(r)) => r == 0.0
  }

  /** No emergency stop, no fault, no needed resource in use. */
  predicate Unobstructed(sk: Skill, s: State) {
    && Raw(s, EMERGENCY) != Some(Bool(true))
    && NoFault(s)
    && s.active * sk.resources == {}
  }

  lemma CheckStepExact(id: string, sk: Skill, s: State)
    ensures CheckStep(id, sk, s) == [] <==> Unobstructed(sk, s)
  {
  }

  function PreconditionIssues(id: string, evals: seq<Evaluation>): (r: seq<Issue>)
    ensures r == [] <==> forall e :: e in evals ==> e.Satisfied()
    ensures forall i :: i in r ==> i.repairable
  {
    if evals == [] then []
    else
      var e := evals[0];
      (if e.Satisfied() then []
       else [Issue(PreconditionFailed(e.code), id, "", true, Some(e.field), Some(e.evidence.status))]) +
      PreconditionIssues(id, evals[1..])
  }

  function UnprojectableIssues(id: string, keys: seq<string>, effects: Changes): (r: seq<Issue>)
    ensures r == [] <==> forall k :: k in keys && k in effects ==> effects[k].Some?
    ensures forall i :: i in r ==> i.code == Unprojectable && !i.repairable && i.knowledge.None?
  {
    if keys == [] then []
    else
      (if keys[0] in effects && effects[keys[0]].None? then [Stopper(Unprojectable, id, keys[0])]
       else []) +
      UnprojectableIssues(id, keys[1..], effects)
  }

  function UnobservableIssues(id: string, keys: seq<string>, caps: Capabilities): (r: seq<Issue>)
    ensures r == [] <==> forall k :: k in keys ==> caps.CanObserve(k)
    ensures forall i :: i in r ==> i.code == Unobservable && !i.repairable && i.knowledge.None?
  {
    if keys == [] then []
    else
      (if caps.CanObserve(keys[0]) then []
       else [Issue(Unobservable, id, keys[0], false, Some(keys[0]), None)]) +
      UnobservableIssues(id, keys[1..], caps)
  }

  function ReasonIssues(id: string, reasons: seq<string>): (r: seq<Issue>)
    ensures r == [] <==> reasons == []
    ensures forall i :: i in r ==> i.code == SemanticMismatch && !i.repairable && i.knowledge.None?
  {
    if reasons == [] then []
    else [Stopper(SemanticMismatch, id, reasons[0])] + ReasonIssues(id, reasons[1..])
  }

  function DeclaredIssues(id: string, declared: seq<(string, Value)>, effects: Changes)
    : (r: seq<Issue>)
    ensures r == [] <==> forall d :: d in declared ==>
                           d.0 in effects && OptEq(effects[d.0], Some(d.1))
    ensures forall i :: i in r ==>
              (i.code == UnverifiableEffect || i.code == EffectMismatch) && !i.repairable && i.knowledge.None?
  {
    if declared == [] then []
    else
      var (key, value) := declared[0];
      (if key !in effects then [Stopper(UnverifiableEffect, id, key)]
       else if !OptEq(effects[key], Some(value)) then [Stopper(EffectMismatch, id, key)]
       else []) +
      DeclaredIssues(id, declared[1..], effects)
  }

  function BackendIssues(caps: Option<Capabilities>, sk: Skill, step: Step, effects: Changes)
    : seq<Issue>
  {
    match caps
    case None => []
    case Some(c) =>
      (match c.SemanticsFor(step.skill)
       case None => []
       case Some(sem) =>
         ReasonIssues(step.id,
           SemanticReasons(sem, step.arguments, effects.Keys + sk.allowedSideEffects))) +
      UnobservableIssues(step.id, EffectKeys(sk, step.arguments), c)
  }

  /** The step reaches the checks that need its contract: it is known, supported, well argued. */
  predicate Checkable(reg: Skillset, caps: Option<Capabilities>, step: Step) {
    Callable(reg, step) && (caps.Some? ==> caps.value.Supports(step.skill))
  }

  function CheckableIssues(sk: Skill, caps: Option<Capabilities>, now: real, step: Step, sim: State)
    : seq<Issue>
  {
    var effects := ExpectedEffects(sk, step.arguments, sim);
    PreconditionIssues(step.id, EvaluatePreconditions(sk, sim, step.arguments, now)) +
    CheckStep(step.id, sk, sim) +
    UnprojectableIssues(step.id, EffectKeys(sk, step.arguments), effects) +
    BackendIssues(caps, sk, step, effects) +
    DeclaredIssues(step.id, step.expectedEffect, effects)
  }

  function StepIssues(reg: Skillset, caps: Option<Capabilities>, now: real, step: Step,
                      seen: set<string>, sim: State): seq<Issue>
  {
    (if step.id in seen then [Stopper(DuplicateStepId, step.id, "")] else []) +
    match Lookup(reg, step.skill)
    case None => [Stopper(UnknownSkill, step.id, "")]
    case Some(sk) =>
      if caps.Some? && !caps.value.Supports(step.skill) then [Stopper(Unsupported, step.id, "")]
      else if !ValidArgs(sk, step.arguments) then [Stopper(InvalidArguments, step.id, "")]
      else CheckableIssues(sk, caps, now, step, sim)
  }

  function NextSim(reg: Skillset, caps: Option<Capabilities>, step: Step, sim: State): State {
    if Checkable(reg, caps, step) then Project(reg, sim, step) else sim
  }

  function IssuesFrom(reg: Skillset, caps: Option<Capabilities>, now: real, steps: seq<Step>,
                      seen: set<string>, sim: State): seq<Issue>
    decreases |steps|
  {
    if steps == [] then []
    else
      StepIssues(reg, caps, now, steps[0], seen, sim) +
      IssuesFrom(reg, caps, now, steps[1..], seen + {steps[0].id}, NextSim(reg, caps, steps[0], sim))
  }

  // ---- Issues of parallel groups --------------------------------------------------------------

  predicate InGroup(step: Step, g: string) { g != "" && step.parallelGroup == Some(g) }

  function Members(steps: seq<Step>, g: string): seq<Step> {
    if steps == [] then []
    else (if InGroup(steps[0], g) then [steps[0]] else []) + Members(steps[1..], g)
  }

  /** Group names in order of first appearance. */
  function GroupNames(steps: seq<Step>): (r: seq<string>)
    ensures forall g :: g in r <==> exists p :: p in steps && InGroup(p, g)
  {
    if steps == [] then []
    else
      var prior := GroupNames(steps[..|steps| - 1]);
      var last := steps[|steps| - 1];
      var g := last.parallelGroup;
      assert steps == steps[..|steps| - 1] + [last];
      assert forall p :: p in steps <==> p in steps[..|steps| - 1] || p == last;
      assert forall n :: InGroup(last, n) <==> n != "" && g == Some(n);
      if g.Some? && g.value != "" && g.value !in prior then prior + [g.value] else prior
  }

  predicate Incompatible(a: Skill, b: Skill) {
    a.resources * b.incompatible != {} || b.resources * a.incompatible != {}
  }

  function BodyIssues(id: string, sk: Skill, prior: seq<Skill>): (r: seq<Issue>)
    ensures r == [] <==> forall p :: p in prior ==> !Incompatible(sk, p)
    ensures forall i :: i in r ==> i.code == BodyConflict && i.repairable && i.knowledge.None?
  {
    if prior == [] then []
    else
      (if Incompatible(sk, prior[0]) then [Issue(BodyConflict, id, prior[0].name, true, None, None)]
       else []) +
      BodyIssues(id, sk, prior[1..])
  }

  function ResourceIssues(reg: Skillset, members: seq<Step>, used: set<string>, prior: seq<Skill>)
    : seq<Issue>
    decreases |members|
  {
    if members == [] then []
    else
      match Lookup(reg, members[0].skill)
      case None => ResourceIssues(reg, members[1..], used, prior)
      case Some(sk) =>
        (if used * sk.resources != {} then
           [Issue(ParallelResource, members[0].id, "", true, None, None)] else []) +
        BodyIssues(members[0].id, sk, prior) +
        ResourceIssues(reg, members[1..], used + sk.resources, prior + [sk])
  }

  /** One step's predictions against those already recorded for its group. */
  function ConflictingKeys(keys: seq<string>, effects: Changes, byField: Changes): (r: seq<string>)
    ensures r == [] <==> forall k :: k in keys && k in byField && k in effects ==>
                                     OptEq(byField[k], effects[k])
  {
    if keys == [] then []
    else
      var k := keys[0];
      if k in byField && k in effects && !OptEq(byField[k], effects[k]) then
        [k] + ConflictingKeys(keys[1..], effects, byField)
      else
        ConflictingKeys(keys[1..], effects, byField)
  }

  function ConflictIssues(id: string, keys: seq<string>): (r: seq<Issue>)
    ensures r == [] <==> keys == []
    ensures forall i :: i in r ==> i.code == ParallelEffect && !i.repairable && i.knowledge.None?
  {
    if keys == [] then []
    else [Issue(ParallelEffect, id, keys[0], false, Some(keys[0]), None)] +
         ConflictIssues(id, keys[1..])
  }

  /** First recorded value wins its field; an equal later one replaces it. */
  function Record(byField: Changes, effects: Changes): Changes {
    map k | k in byField.Keys + effects.Keys ::
      if k in effects && (k in byField ==> OptEq(byField[k], effects[k])) then effects[k]
      else byField[k]
  }

  predicate Predictable(reg: Skillset, step: Step, s: State) {
    Knows(reg, step.skill) &&
    EffectsEvaluable(Lookup(reg, step.skill).value, step.arguments, s)
  }

  /** Predicting a step raises exactly when its skill is unknown, or some active effect has a
      placeholder that no text fills, an operand that is not there, or is an increment of a
      present value in which something is not a number. */
  lemma PredictableExact(reg: Skillset, step: Step, s: State)
    ensures !Predictable(reg, step, s) <==>
            match Lookup(reg, step.skill)
            case None => true
            case Some(sk) =>
              exists i :: 0 <= i < |sk.effects| && var e := sk.effects[i];
                && (e.whenArgument.Some? ==> e.whenArgument.value in step.arguments)
                && (|| !Resolvable(e.field, step.arguments)
                    || Operand(e, step.arguments).None?
                    || (&& e.operation == Increment && Raw(s, Format(e.field, step.arguments)).Some?
                        && (|| Num(Raw(s, Format(e.field, step.arguments)).value).None?
                            || Num(Operand(e, step.arguments).value).None?)))
  {
    if Knows(reg, step.skill) {
      var sk := Lookup(reg, step.skill).value;
      if !Predictable(reg, step, s) {
        var e :| e in sk.effects && Active(e, step.arguments) && !Evaluable(e, step.arguments, s);
        var i :| 0 <= i < |sk.effects| && sk.effects[i] == e;
      } else {
        assert forall i :: 0 <= i < |sk.effects| ==> sk.effects[i] in sk.effects;
      }
    }
  }

  function EffectConflicts(reg: Skillset, members: seq<Step>, s: State, byField: Changes): seq<Issue>
    decreases |members|
  {
    if members == [] then []
    else if !Predictable(reg, members[0], s) then EffectConflicts(reg, members[1..], s, byField)
    else
      var effects := StepEffects(reg, members[0], s);
      var keys := EffectKeys(Lookup(reg, members[0].skill).value, members[0].arguments);
      ConflictIssues(members[0].id, ConflictingKeys(keys, effects, byField)) +
      EffectConflicts(reg, members[1..], s, Record(byField, effects))
  }

  function ParallelIssues(reg: Skillset, steps: seq<Step>, groups: seq<string>): seq<Issue> {
    if groups == [] then []
    else ResourceIssues(reg, Members(steps, groups[0]), {}, []) +
         ParallelIssues(reg, steps, groups[1..])
  }

  function ParallelEffectIssues(reg: Skillset, steps: seq<Step>, s: State, groups: seq<string>)
    : seq<Issue>
  {
    if groups == [] then []
    else EffectConflicts(reg, Members(steps, groups[0]), s, map[]) +
         ParallelEffectIssues(reg, steps, s, groups[1..])
  }

  // ---- The report --------------------------------------------------------------------------------

  /** `dict.fromkeys`: first occurrences, in order. */
  function Unique(issues: seq<Issue>): (r: seq<Issue>)
    ensures forall i :: i in r <==> i in issues
    ensures forall i, j :: 0 <= i < j < |r| ==> r[i] != r[j]
  {
    if issues == [] then []
    else
      var prior := Unique(issues[..|issues| - 1]);
      var last := issues[|issues| - 1];
      if last in prior then prior else prior + [last]
  }

  function AllIssues(reg: Skillset, caps: Option<Capabilities>, now: real, plan: Plan, s: State)
    : seq<Issue>
  {
    IssuesFrom(reg, caps, now, plan.steps, {}, s) +
    ParallelIssues(reg, plan.steps, GroupNames(plan.steps)) +
    ParallelEffectIssues(reg, plan.steps, s, GroupNames(plan.steps))
  }

  function Ground(reg: Skillset, caps: Option<Capabilities>, now: real, plan: Plan, s: State): Report {
    var unique := Unique(AllIssues(reg, caps, now, plan, s));
    Report(unique == [], unique)
  }
}
