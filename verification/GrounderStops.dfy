/** Which reports require a stop, and which leave repair a chance. */
module GrounderStops {
  import opened Values
  import opened RobotState
  import opened Templates
  import opened Skills
  import opened Registry
  import opened Capability
  import opened Grounder
  import opened GrounderSpec

  /** The grounder's own simulation: steps that cannot be checked change nothing. */
  function SimSkip(reg: Skillset, caps: Option<Capabilities>, steps: seq<Step>, s: State, i: nat): State
    requires i <= |steps|
  {
    if i == 0 then s
    else
      var (step, before) := (steps[i - 1], SimSkip(reg, caps, steps, s, i - 1));
      if Callable(reg, step) && (caps.Some? && caps.value.supported.Some? ==> step.skill in caps.value.supported.value)
      then Copy(before, StepEffects(reg, step, before))
      else before
  }

  lemma SimSkipNext(reg: Skillset, caps: Option<Capabilities>, steps: seq<Step>, s: State, k: nat)
    requires k < |steps|
    ensures SimSkip(reg, caps, steps, s, k + 1) == NextSim(reg, caps, steps[k], SimSkip(reg, caps, steps, s, k))
  {
    hide ValidArgs, StepEffects;
  }

  /** A defect of a checkable step that no inserted step can remove. */
  predicate Hopeless(sk: Skill, caps: Option<Capabilities>, step: Step, sim: State) {
    var effects := ExpectedEffects(sk, step.arguments, sim);
    || Raw(sim, EMERGENCY) == Some(Bool(true))
    || !NoFault(sim)
    || (exists k :: k in effects && effects[k].None?)
    || (caps.Some? && !BackendAccepts(caps.value, sk, step, effects))
    || (exists d :: d in step.expectedEffect && !(d.0 in effects && OptEq(effects[d.0], Some(d.1))))
  }

  predicate BlocksAt(reg: Skillset, caps: Option<Capabilities>, steps: seq<Step>, s: State, i: nat)
    requires i < |steps|
  {
    || steps[i].id in Ids(steps[..i])
    || !Checkable(reg, caps, steps[i])
    || Hopeless(Lookup(reg, steps[i].skill).value, caps, steps[i], SimSkip(reg, caps, steps, s, i))
  }

  predicate Stops(issues: seq<Issue>) { exists i :: i in issues && !i.repairable }

  lemma StopsConcat(a: seq<Issue>, b: seq<Issue>)
    ensures Stops(a + b) <==> Stops(a) || Stops(b)
  {
    assert forall i :: i in a + b <==> i in a || i in b;
  }

  lemma AllStop(a: seq<Issue>)
    requires forall i :: i in a ==> !i.repairable
    ensures Stops(a) <==> a != []
  {
    if a != [] { assert a[0] in a; }
  }

  lemma CheckStepStops(id: string, sk: Skill, s: State)
    ensures Stops(CheckStep(id, sk, s)) <==>
            Raw(s, EMERGENCY) == Some(Bool(true)) || !NoFault(s)
  {
    var a := if Raw(s, EMERGENCY) == Some(Bool(true)) then [Stopper(EmergencyStop, id, "")] else [];
    var b := if Truthy(Raw(s, FAULT)) then [Stopper(RobotFault, id, "")] else [];
    var c := if s.active * sk.resources != {} then [Issue(ResourceBusy, id, "", true, None, None)] else [];
    assert CheckStep(id, sk, s) == a + b + c;
    StopsConcat(a + b, c);
    StopsConcat(a, b);
    AllStop(a);
    AllStop(b);
  }

  lemma BackendStops(caps: Option<Capabilities>, sk: Skill, step: Step, effects: Changes)
    ensures Stops(BackendIssues(caps, sk, step, effects)) <==> BackendIssues(caps, sk, step, effects) != []
  {
    if caps.Some? {
      var a := match caps.value.SemanticsFor(step.skill)
               case None => []
               case Some(sem) =>
                 ReasonIssues(step.id,
                   SemanticReasons(sem, step.arguments, effects.Keys + sk.allowedSideEffects));
      var b := UnobservableIssues(step.id, EffectKeys(sk, step.arguments), caps.value);
      assert BackendIssues(caps, sk, step, effects) == a + b;
      StopsConcat(a, b);
      AllStop(a);
      AllStop(b);
    }
  }

  lemma CheckableStops(reg: Skillset, caps: Option<Capabilities>, now: real, step: Step, sim: State)
    requires Checkable(reg, caps, step)
    ensures var sk := Lookup(reg, step.skill).value;
            Stops(CheckableIssues(sk, caps, now, step, sim)) <==> Hopeless(sk, caps, step, sim)
  {
    hide BackendAccepts;
    var sk := Lookup(reg, step.skill).value;
    var args := step.arguments;
    var effects := ExpectedEffects(sk, args, sim);
    var a := PreconditionIssues(step.id, EvaluatePreconditions(sk, sim, args, now));
    var b := CheckStep(step.id, sk, sim);
    var c := UnprojectableIssues(step.id, EffectKeys(sk, args), effects);
    var d := BackendIssues(caps, sk, step, effects);
    var e := DeclaredIssues(step.id, step.expectedEffect, effects);
    assert CheckableIssues(sk, caps, now, step, sim) == a + b + c + d + e;
    StopsConcat(a + b + c + d, e);
    StopsConcat(a + b + c, d);
    StopsConcat(a + b, c);
    StopsConcat(a, b);
    CheckStepStops(step.id, sk, sim);
    AllStop(c);
    AllStop(e);
    EffectsDictionary(sk.effects, args, sim);
    BackendStops(caps, sk, step, effects);
    assert d == [] <==> (caps.Some? ==> BackendAccepts(caps.value, sk, step, effects)) by {
      if caps.Some? { BackendIssuesExact(caps.value, sk, step, sim); }
    }
  }

  lemma StepStops(reg: Skillset, caps: Option<Capabilities>, now: real, steps: seq<Step>, s: State, k: nat)
    requires k < |steps|
    ensures Stops(StepIssues(reg, caps, now, steps[k], Ids(steps[..k]), SimSkip(reg, caps, steps, s, k))) <==>
            BlocksAt(reg, caps, steps, s, k)
  {
    hide CheckableIssues, Hopeless;
    var step, seen, sim := steps[k], Ids(steps[..k]), SimSkip(reg, caps, steps, s, k);
    var dup := if step.id in seen then [Stopper(DuplicateStepId, step.id, "")] else [];
    AllStop(dup);
    if Checkable(reg, caps, step) {
      var own := CheckableIssues(Lookup(reg, step.skill).value, caps, now, step, sim);
      assert StepIssues(reg, caps, now, step, seen, sim) == dup + own;
      StopsConcat(dup, own);
      CheckableStops(reg, caps, now, step, sim);
    } else {
      var all := StepIssues(reg, caps, now, step, seen, sim);
      assert all[|all| - 1] in all && !all[|all| - 1].repairable;
    }
  }

  lemma {:induction false} StepsStop(reg: Skillset, caps: Option<Capabilities>, now: real, steps: seq<Step>,
                                     s: State, k: nat)
    requires k <= |steps|
    ensures Stops(IssuesFrom(reg, caps, now, steps[k..], Ids(steps[..k]), SimSkip(reg, caps, steps, s, k))) <==>
            exists i :: k <= i < |steps| && BlocksAt(reg, caps, steps, s, i)
    decreases |steps| - k
  {
    hide BlocksAt, StepIssues, NextSim, SimSkip;
    if k < |steps| {
      SimSkipNext(reg, caps, steps, s, k);
      var sim := SimSkip(reg, caps, steps, s, k);
      var rest := steps[k + 1..];
      assert steps[k..][0] == steps[k] && steps[k..][1..] == rest;
      assert Ids(steps[..k + 1]) == Ids(steps[..k]) + {steps[k].id} by {
        assert steps[..k + 1] == steps[..k] + [steps[k]];
      }
      StepStops(reg, caps, now, steps, s, k);
      StepsStop(reg, caps, now, steps, s, k + 1);
      StopsConcat(StepIssues(reg, caps, now, steps[k], Ids(steps[..k]), sim),
                  IssuesFrom(reg, caps, now, rest, Ids(steps[..k + 1]), SimSkip(reg, caps, steps, s, k + 1)));
    }
  }

  lemma {:induction false} ResourceIssuesNeverStop(reg: Skillset, members: seq<Step>, used: set<string>,
                                                   prior: seq<Skill>)
    ensures !Stops(ResourceIssues(reg, members, used, prior))
    decreases |members|
  {
    if members != [] {
      match Lookup(reg, members[0].skill)
      case None => ResourceIssuesNeverStop(reg, members[1..], used, prior);
      case Some(sk) => ResourceIssuesNeverStop(reg, members[1..], used + sk.resources, prior + [sk]);
    }
  }

  lemma {:induction false} ParallelNeverStops(reg: Skillset, steps: seq<Step>, groups: seq<string>)
    ensures !Stops(ParallelIssues(reg, steps, groups))
  {
    if groups != [] {
      ResourceIssuesNeverStop(reg, Members(steps, groups[0]), {}, []);
      ParallelNeverStops(reg, steps, groups[1..]);
    }
  }

  lemma {:induction false} ConflictsAllStop(reg: Skillset, members: seq<Step>, s: State, byField: Changes)
    ensures forall i :: i in EffectConflicts(reg, members, s, byField) ==> !i.repairable
    decreases |members|
  {
    if members != [] {
      if !Predictable(reg, members[0], s) {
        ConflictsAllStop(reg, members[1..], s, byField);
      } else {
        ConflictsAllStop(reg, members[1..], s, Record(byField, StepEffects(reg, members[0], s)));
      }
    }
  }

  predicate GroupAgrees(reg: Skillset, s: State, steps: seq<Step>, g: string) {
    PairsWithin((a, b) => BothAgree(reg, s, a, b), steps, g)
  }

  lemma GroupEffectsStop(reg: Skillset, s: State, steps: seq<Step>, g: string)
    ensures Stops(EffectConflicts(reg, Members(steps, g), s, map[])) <==> !GroupAgrees(reg, s, steps, g)
  {
    hide BothAgree;
    var members := Members(steps, g);
    ConflictsAllStop(reg, members, s, map[]);
    AllStop(EffectConflicts(reg, members, s, map[]));
    EffectConflictsExact(reg, members, s, map[]);
    MembersPairs((a, b) => BothAgree(reg, s, a, b), steps, g);
  }

  lemma {:induction false} EffectsStop(reg: Skillset, s: State, steps: seq<Step>, groups: seq<string>)
    ensures Stops(ParallelEffectIssues(reg, steps, s, groups)) <==>
            exists g :: g in groups && !GroupAgrees(reg, s, steps, g)
  {
    hide GroupAgrees, Stops;
    if groups == [] {
      AllStop([]);
    } else {
      var own := EffectConflicts(reg, Members(steps, groups[0]), s, map[]);
      EffectsStop(reg, s, steps, groups[1..]);
      StopsConcat(own, ParallelEffectIssues(reg, steps, s, groups[1..]));
      GroupEffectsStop(reg, s, steps, groups[0]);
      assert groups == [groups[0]] + groups[1..];
    }
  }

  /** A report requires a stop exactly when a step is duplicated, unknown, unsupported or
      badly argued, or has a defect that no inserted step removes, or two steps of a parallel
      group predict different values. Unsatisfied preconditions, busy resources and body
      conflicts alone never do. */
  lemma RequiresStopExact(reg: Skillset, caps: Option<Capabilities>, now: real, plan: Plan, s: State)
    ensures Ground(reg, caps, now, plan, s).RequiresStop() <==>
            || (exists i :: 0 <= i < |plan.steps| && BlocksAt(reg, caps, plan.steps, s, i))
            || (exists g :: g in GroupNames(plan.steps) && !GroupAgrees(reg, s, plan.steps, g))
  {
    hide BlocksAt, GroupAgrees;
    var steps, groups := plan.steps, GroupNames(plan.steps);
    var a := IssuesFrom(reg, caps, now, steps, {}, s);
    var b := ParallelIssues(reg, steps, groups);
    var c := ParallelEffectIssues(reg, steps, s, groups);
    assert AllIssues(reg, caps, now, plan, s) == a + b + c;
    StopsConcat(a + b, c);
    StopsConcat(a, b);
    assert Ground(reg, caps, now, plan, s).RequiresStop() <==> Stops(a + b + c);
    assert steps[0..] == steps && Ids(steps[..0]) == {};
    StepsStop(reg, caps, now, steps, s, 0);
    ParallelNeverStops(reg, steps, groups);
    EffectsStop(reg, s, steps, groups);
  }

  // ---- What the backend cannot do -------------------------------------------------------------------

  /** The call leaves what the backend declares: the skill is not supported, an argument is
      outside its domain, an effect cannot be observed, or one that cannot be avoided is neither
      predicted nor allowed. */
  ghost predicate Undeliverable(reg: Skillset, caps: Capabilities, step: Step, sim: State) {
    || (caps.supported.Some? && step.skill !in caps.supported.value)
    || (Callable(reg, step) &&
          var sk := Lookup(reg, step.skill).value;
          var effects := ExpectedEffects(sk, step.arguments, sim);
          || (caps.observable.Some? && exists k :: k in effects && k !in caps.observable.value)
          || exists i :: 0 <= i < |caps.semantics| && FirstUnder(caps.semantics, step.skill, i) &&
               var sem := caps.semantics[i];
               || (exists d :: d in sem.domains && d.name in step.arguments && Outside(d, step.arguments[d.name]))
               || (exists f :: f in sem.unavoidable && f !in effects && f !in sk.allowedSideEffects))
  }

  predicate FirstUnder(semantics: seq<Semantics>, skill: string, i: nat)
    requires i < |semantics|
  {
    semantics[i].skill == skill && forall j :: 0 <= j < i ==> semantics[j].skill != skill
  }

  lemma AllowExact(sem: Semantics, args: Args, effects: Changes, sideEffects: set<string>)
    ensures SemanticsAllow(sem, args, effects.Keys + sideEffects) <==>
            && (forall d :: d in sem.domains && d.name in args ==> !Outside(d, args[d.name]))
            && (forall f :: f in sem.unavoidable ==> f in effects || f in sideEffects)
  {
    hide Accepts, Outside;
    forall d | d in sem.domains && d.name in args ensures Accepts(d, args[d.name]) <==> !Outside(d, args[d.name]) {
      AcceptsExact(d, args[d.name]);
    }
  }

  lemma AcceptedExact(reg: Skillset, caps: Capabilities, step: Step, sim: State)
    requires Callable(reg, step)
    ensures var sk := Lookup(reg, step.skill).value;
            var effects := ExpectedEffects(sk, step.arguments, sim);
            BackendAccepts(caps, sk, step, effects) <==> !Undeliverable(reg, caps, step, sim)
  {
    hide ExpectedEffects, ValidArgs, SemanticsAllow, Outside;
    var sk := Lookup(reg, step.skill).value;
    var effects := ExpectedEffects(sk, step.arguments, sim);
    FirstForExact(caps.semantics, step.skill);
    var found := FirstFor(caps.semantics, step.skill);
    if found.Some? { AllowExact(found.value, step.arguments, effects, sk.allowedSideEffects); }
    forall i, j | 0 <= i < |caps.semantics| && 0 <= j < |caps.semantics| &&
                  FirstUnder(caps.semantics, step.skill, i) && FirstUnder(caps.semantics, step.skill, j)
      ensures i == j
    {
    }
  }

  /** No plan with such a step is ever accepted, wherever the step stands in it, and its report
      requires a stop. */
  lemma UndeliverableStops(reg: Skillset, caps: Capabilities, now: real, plan: Plan, s: State, k: nat)
    requires k < |plan.steps|
    requires Undeliverable(reg, caps, plan.steps[k], SimSkip(reg, Some(caps), plan.steps, s, k))
    ensures var report := Ground(reg, Some(caps), now, plan, s);
            !report.valid && report.RequiresStop()
  {
    hide Ground, BackendAccepts, Undeliverable, ValidArgs, ExpectedEffects, SimSkip;
    var step, sim := plan.steps[k], SimSkip(reg, Some(caps), plan.steps, s, k);
    if Checkable(reg, Some(caps), step) {
      AcceptedExact(reg, caps, step, sim);
    }
    assert BlocksAt(reg, Some(caps), plan.steps, s, k);
    RequiresStopExact(reg, Some(caps), now, plan, s);
    StopIsInvalid(reg, Some(caps), now, plan, s);
  }

  lemma StopIsInvalid(reg: Skillset, caps: Option<Capabilities>, now: real, plan: Plan, s: State)
    ensures Ground(reg, caps, now, plan, s).RequiresStop() ==> !Ground(reg, caps, now, plan, s).valid
  {
  }
}
