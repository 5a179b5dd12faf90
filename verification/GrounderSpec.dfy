/** What it means for a plan to be grounded, and that `Ground` decides it. */
module GrounderSpec {
  import opened Values
  import opened RobotState
  import opened Templates
  import opened Skills
  import opened Registry
  import opened Capability
  import opened Grounder

  /** The planning projection before step `i`. */
  function SimAt(reg: Skillset, steps: seq<Step>, s: State, i: nat): State
    requires i <= |steps|
  {
    if i == 0 then s else Project(reg, SimAt(reg, steps, s, i - 1), steps[i - 1])
  }

  predicate BackendAccepts(caps: Capabilities, sk: Skill, step: Step, effects: Changes) {
    && caps.Supports(step.skill)
    && (forall k :: k in effects ==> caps.CanObserve(k))
    && (caps.SemanticsFor(step.skill).Some? ==>
          SemanticsAllow(caps.SemanticsFor(step.skill).value, step.arguments,
                         effects.Keys + sk.allowedSideEffects))
  }

  /** A single step is executable from the projected state and its claims are checkable. */
  predicate StepGrounded(reg: Skillset, caps: Option<Capabilities>, now: real, step: Step, sim: State) {
    Callable(reg, step) &&
    var sk := Lookup(reg, step.skill).value;
    var effects := ExpectedEffects(sk, step.arguments, sim);
    && PreconditionsHold(sk, sim, step.arguments, now)
    && Unobstructed(sk, sim)
    && (forall k :: k in effects ==> effects[k].Some?)
    && (caps.Some? ==> BackendAccepts(caps.value, sk, step, effects))
    && (forall d :: d in step.expectedEffect ==> d.0 in effects && OptEq(effects[d.0], Some(d.1)))
  }

  /** Steps that may share a parallel group. */
  predicate Parallelizable(reg: Skillset, s: State, a: Step, b: Step) {
    Knows(reg, a.skill) && Knows(reg, b.skill) &&
    var (p, q) := (Lookup(reg, a.skill).value, Lookup(reg, b.skill).value);
    && p.resources * q.resources == {}
    && !Incompatible(p, q)
    && BothAgree(reg, s, a, b)
  }

  predicate Agree(a: Changes, b: Changes) {
    forall k :: k in a && k in b ==> OptEq(a[k], b[k])
  }

  predicate EffectsAgree(reg: Skillset, s: State, a: Step, b: Step) {
    Agree(StepEffects(reg, a, s), StepEffects(reg, b, s))
  }

  /** The effect check skips a step whose prediction raises. */
  predicate BothAgree(reg: Skillset, s: State, a: Step, b: Step) {
    Predictable(reg, a, s) && Predictable(reg, b, s) ==> EffectsAgree(reg, s, a, b)
  }

  predicate SameGroup(a: Step, b: Step) {
    a.parallelGroup.Some? && a.parallelGroup.value != "" && a.parallelGroup == b.parallelGroup
  }

  predicate EachStepGrounded(reg: Skillset, caps: Option<Capabilities>, now: real, steps: seq<Step>, s: State) {
    forall i :: 0 <= i < |steps| ==> StepGrounded(reg, caps, now, steps[i], SimAt(reg, steps, s, i))
  }

  predicate DistinctIds(steps: seq<Step>) {
    forall i, j :: 0 <= i < j < |steps| ==> steps[i].id != steps[j].id
  }

  predicate GroupsParallelizable(reg: Skillset, steps: seq<Step>, s: State) {
    forall i, j :: 0 <= i < j < |steps| && SameGroup(steps[i], steps[j]) ==>
      Parallelizable(reg, s, steps[i], steps[j])
  }

  predicate Grounded(reg: Skillset, caps: Option<Capabilities>, now: real, plan: Plan, s: State) {
    var steps := plan.steps;
    && DistinctIds(steps)
    && EachStepGrounded(reg, caps, now, steps, s)
    && GroupsParallelizable(reg, steps, s)
  }

  // ---- Steps --------------------------------------------------------------------------------------

  lemma BackendIssuesExact(caps: Capabilities, sk: Skill, step: Step, sim: State)
    requires caps.Supports(step.skill)
    ensures var effects := ExpectedEffects(sk, step.arguments, sim);
            BackendIssues(Some(caps), sk, step, effects) == [] <==>
            BackendAccepts(caps, sk, step, effects)
  {
    EffectsDictionary(sk.effects, step.arguments, sim);
  }

  lemma EvaluationsExact(sk: Skill, s: State, args: Args, now: real)
    ensures (forall e :: e in EvaluatePreconditions(sk, s, args, now) ==> e.Satisfied()) <==>
            PreconditionsHold(sk, s, args, now)
  {
    var evals := EvaluatePreconditions(sk, s, args, now);
    forall p | p in sk.preconditions ensures Evaluate(p, s, args, now) in evals {
      var i :| 0 <= i < |sk.preconditions| && sk.preconditions[i] == p;
      assert evals[i] == Evaluate(p, s, args, now);
    }
  }

  lemma CheckableIssuesExact(reg: Skillset, caps: Option<Capabilities>, now: real, step: Step, sim: State)
    requires Checkable(reg, caps, step)
    ensures CheckableIssues(Lookup(reg, step.skill).value, caps, now, step, sim) == [] <==>
            StepGrounded(reg, caps, now, step, sim)
  {
    var sk := Lookup(reg, step.skill).value;
    var args := step.arguments;
    var effects := ExpectedEffects(sk, args, sim);
    var a := PreconditionIssues(step.id, EvaluatePreconditions(sk, sim, args, now));
    var b := CheckStep(step.id, sk, sim);
    var c := UnprojectableIssues(step.id, EffectKeys(sk, args), effects);
    var d := BackendIssues(caps, sk, step, effects);
    var e := DeclaredIssues(step.id, step.expectedEffect, effects);
    assert CheckableIssues(sk, caps, now, step, sim) == a + b + c + d + e;
    assert a == [] <==> PreconditionsHold(sk, sim, args, now) by { EvaluationsExact(sk, sim, args, now); }
    assert b == [] <==> Unobstructed(sk, sim) by { CheckStepExact(step.id, sk, sim); }
    assert c == [] <==> forall k :: k in effects ==> effects[k].Some? by {
      EffectsDictionary(sk.effects, args, sim);
    }
    assert d == [] <==> (caps.Some? ==> BackendAccepts(caps.value, sk, step, effects)) by {
      if caps.Some? { BackendIssuesExact(caps.value, sk, step, sim); }
    }
    EmptyParts(a, b, c, d, e);
  }

  lemma EmptyParts(a: seq<Issue>, b: seq<Issue>, c: seq<Issue>, d: seq<Issue>, e: seq<Issue>)
    ensures a + b + c + d + e == [] <==> a == [] && b == [] && c == [] && d == [] && e == []
  {
    assert |a + b + c + d + e| == |a| + |b| + |c| + |d| + |e|;
  }

  lemma StepIssuesExact(reg: Skillset, caps: Option<Capabilities>, now: real, step: Step,
                        seen: set<string>, sim: State)
    ensures StepIssues(reg, caps, now, step, seen, sim) == [] <==>
            step.id !in seen && StepGrounded(reg, caps, now, step, sim)
  {
    if Checkable(reg, caps, step) {
      CheckableIssuesExact(reg, caps, now, step, sim);
    }
  }

  function Ids(steps: seq<Step>): set<string> { set p | p in steps :: p.id }

  /** Step `i` is fresh and grounded where it stands. */
  predicate GoodAt(reg: Skillset, caps: Option<Capabilities>, now: real, steps: seq<Step>, s: State, i: nat)
    requires i < |steps|
  {
    steps[i].id !in Ids(steps[..i]) &&
    StepGrounded(reg, caps, now, steps[i], SimAt(reg, steps, s, i))
  }

  lemma GroundedNext(reg: Skillset, caps: Option<Capabilities>, now: real, step: Step, sim: State)
    requires StepGrounded(reg, caps, now, step, sim)
    ensures NextSim(reg, caps, step, sim) == Project(reg, sim, step)
  {
  }

  lemma IssuesFromStep(reg: Skillset, caps: Option<Capabilities>, now: real, steps: seq<Step>, k: nat, s: State)
    requires k < |steps|
    ensures (IssuesFrom(reg, caps, now, steps[k..], Ids(steps[..k]), SimAt(reg, steps, s, k)) == []) <==>
            GoodAt(reg, caps, now, steps, s, k) &&
            IssuesFrom(reg, caps, now, steps[k + 1..], Ids(steps[..k + 1]), SimAt(reg, steps, s, k + 1)) == []
  {
    hide StepIssues, StepGrounded, NextSim, Project;
    var sim := SimAt(reg, steps, s, k);
    var rest := steps[k + 1..];
    assert steps[k..][0] == steps[k] && steps[k..][1..] == rest;
    StepIssuesExact(reg, caps, now, steps[k], Ids(steps[..k]), sim);
    assert Ids(steps[..k + 1]) == Ids(steps[..k]) + {steps[k].id} by {
      assert steps[..k + 1] == steps[..k] + [steps[k]];
    }
    if GoodAt(reg, caps, now, steps, s, k) { GroundedNext(reg, caps, now, steps[k], sim); }
  }

  /** The fold over steps is empty exactly when each remaining step is good. */
  lemma {:induction false} IssuesFromExact(
    reg: Skillset, caps: Option<Capabilities>, now: real, steps: seq<Step>, k: nat, s: State)
    requires k <= |steps|
    ensures (IssuesFrom(reg, caps, now, steps[k..], Ids(steps[..k]), SimAt(reg, steps, s, k)) == []) <==>
            forall i :: k <= i < |steps| ==> GoodAt(reg, caps, now, steps, s, i)
    decreases |steps| - k
  {
    if k < |steps| {
      IssuesFromStep(reg, caps, now, steps, k, s);
      IssuesFromExact(reg, caps, now, steps, k + 1, s);
    }
  }

  // ---- Groups -----------------------------------------------------------------------------------------

  lemma {:induction false} MembersExact(steps: seq<Step>, g: string)
    ensures forall m :: m in Members(steps, g) <==> m in steps && InGroup(m, g)
  {
    if steps != [] {
      MembersExact(steps[1..], g);
      assert steps == [steps[0]] + steps[1..];
      assert forall m :: m in steps <==> m == steps[0] || m in steps[1..];
    }
  }

  predicate Clash(reg: Skillset, a: Step, b: Step) {
    Knows(reg, a.skill) && Knows(reg, b.skill) &&
    var (p, q) := (Lookup(reg, a.skill).value, Lookup(reg, b.skill).value);
    p.resources * q.resources != {} || Incompatible(p, q)
  }

  predicate ClashesPrior(reg: Skillset, prior: seq<Skill>, b: Step) {
    Knows(reg, b.skill) &&
    var q := Lookup(reg, b.skill).value;
    exists p :: p in prior && (p.resources * q.resources != {} || Incompatible(q, p))
  }

  function Used(prior: seq<Skill>): set<string> {
    set p, r | p in prior && r in p.resources :: r
  }

  lemma UsedMore(prior: seq<Skill>, sk: Skill)
    ensures Used(prior + [sk]) == Used(prior) + sk.resources
  {
    assert forall p :: p in prior + [sk] <==> p in prior || p == sk;
  }

  /** A step draws an issue exactly when it clashes with an earlier skill of its group. */
  lemma ClashesExact(reg: Skillset, prior: seq<Skill>, m: Step)
    requires Knows(reg, m.skill)
    ensures var sk := Lookup(reg, m.skill).value;
            (Used(prior) * sk.resources != {} || BodyIssues(m.id, sk, prior) != []) <==>
            ClashesPrior(reg, prior, m)
  {
    var sk := Lookup(reg, m.skill).value;
    if Used(prior) * sk.resources != {} {
      var r :| r in Used(prior) && r in sk.resources;
      var p :| p in prior && r in p.resources;
      assert r in p.resources * sk.resources;
    }
    if p :| p in prior && p.resources * sk.resources != {} {
      var r :| r in p.resources * sk.resources;
      assert r in Used(prior) * sk.resources;
    }
  }

  lemma ClashesMore(reg: Skillset, prior: seq<Skill>, m: Step, b: Step)
    requires Knows(reg, m.skill)
    ensures ClashesPrior(reg, prior + [Lookup(reg, m.skill).value], b) <==>
            ClashesPrior(reg, prior, b) || Clash(reg, m, b)
  {
    var sk := Lookup(reg, m.skill).value;
    assert forall p :: p in prior + [sk] <==> p in prior || p == sk;
  }

  lemma UnknownNeverClashes(reg: Skillset, prior: seq<Skill>, m: Step)
    requires !Knows(reg, m.skill)
    ensures !ClashesPrior(reg, prior, m) && forall b: Step :: !Clash(reg, m, b)
  {
  }

  lemma {:induction false} ResourceIssuesExact(reg: Skillset, members: seq<Step>, prior: seq<Skill>)
    ensures ResourceIssues(reg, members, Used(prior), prior) == [] <==>
            && (forall i :: 0 <= i < |members| ==> !ClashesPrior(reg, prior, members[i]))
            && (forall i, j :: 0 <= i < j < |members| ==> !Clash(reg, members[i], members[j]))
    decreases |members|
  {
    hide ClashesPrior, Clash, Used, BodyIssues;
    if members != [] {
      var m := members[0];
      FirstAndRest(members);
      match Lookup(reg, m.skill)
      case None =>
        ResourceIssuesExact(reg, members[1..], prior);
        UnknownNeverClashes(reg, prior, m);
      case Some(sk) =>
        UsedMore(prior, sk);
        ResourceIssuesExact(reg, members[1..], prior + [sk]);
        ClashesExact(reg, prior, m);
        forall b ensures ClashesPrior(reg, prior + [sk], b) <==> ClashesPrior(reg, prior, b) || Clash(reg, m, b) {
          ClashesMore(reg, prior, m, b);
        }
    }
  }

  lemma FirstAndRest(members: seq<Step>)
    requires members != []
    ensures forall i :: 1 <= i < |members| ==> members[i] == members[1..][i - 1]
    ensures forall i :: 0 <= i < |members| - 1 ==> members[1..][i] == members[i + 1]
  {
  }

  lemma RecordAgrees(byField: Changes, effects: Changes, other: Changes)
    requires Agree(byField, effects)
    ensures Agree(Record(byField, effects), other) <==> Agree(byField, other) && Agree(effects, other)
  {
    var merged := Record(byField, effects);
    assert forall k :: k in effects ==> merged[k] == effects[k];
    assert forall k :: k in byField && k !in effects ==> merged[k] == byField[k];
  }

  lemma {:induction false} EffectConflictsExact(reg: Skillset, members: seq<Step>, s: State, byField: Changes)
    ensures EffectConflicts(reg, members, s, byField) == [] <==>
            && (forall i :: 0 <= i < |members| && Predictable(reg, members[i], s) ==>
                  Agree(byField, StepEffects(reg, members[i], s)))
            && (forall i, j :: 0 <= i < j < |members| ==>
                  BothAgree(reg, s, members[i], members[j]))
    decreases |members|
  {
    if members != [] {
      var m := members[0];
      FirstAndRest(members);
      if Predictable(reg, m, s) {
        var effects := StepEffects(reg, m, s);
        var sk := Lookup(reg, m.skill).value;
        EffectsDictionary(sk.effects, m.arguments, s);
        if Agree(byField, effects) {
          forall b: Step ensures Agree(Record(byField, effects), StepEffects(reg, b, s)) <==>
                          Agree(byField, StepEffects(reg, b, s)) && EffectsAgree(reg, s, m, b) {
            RecordAgrees(byField, effects, StepEffects(reg, b, s));
          }
          EffectConflictsExact(reg, members[1..], s, Record(byField, effects));
        }
      } else {
        EffectConflictsExact(reg, members[1..], s, byField);
      }
    }
  }

  /** No issue arises between two members of one group. */
  predicate Quiet(reg: Skillset, s: State, a: Step, b: Step) {
    !Clash(reg, a, b) && BothAgree(reg, s, a, b)
  }

  type Relation = (Step, Step) -> bool

  predicate AllPairs(r: Relation, steps: seq<Step>) {
    forall i, j :: 0 <= i < j < |steps| ==> r(steps[i], steps[j])
  }

  predicate PairsWithin(r: Relation, steps: seq<Step>, g: string) {
    forall i, j :: 0 <= i < j < |steps| && InGroup(steps[i], g) && InGroup(steps[j], g) ==>
      r(steps[i], steps[j])
  }

  predicate Related(r: Relation, x: Step, rest: seq<Step>) {
    forall m :: m in rest ==> r(x, m)
  }

  predicate RelatedWithin(r: Relation, x: Step, rest: seq<Step>, g: string) {
    forall m :: m in rest && InGroup(x, g) && InGroup(m, g) ==> r(x, m)
  }

  lemma AllPairsCons(r: Relation, x: Step, rest: seq<Step>)
    ensures AllPairs(r, [x] + rest) <==> AllPairs(r, rest) && Related(r, x, rest)
  {
    var steps := [x] + rest;
    if AllPairs(r, steps) {
      forall i, j | 0 <= i < j < |rest| ensures r(rest[i], rest[j]) {
        assert r(steps[i + 1], steps[j + 1]);
      }
      forall m | m in rest ensures r(x, m) {
        var j :| 0 <= j < |rest| && rest[j] == m;
        assert r(steps[0], steps[j + 1]);
      }
    }
  }

  lemma PairsWithinCons(r: Relation, x: Step, rest: seq<Step>, g: string)
    ensures PairsWithin(r, [x] + rest, g) <==>
            PairsWithin(r, rest, g) && RelatedWithin(r, x, rest, g)
  {
    var steps := [x] + rest;
    if PairsWithin(r, steps, g) {
      forall i, j | 0 <= i < j < |rest| && InGroup(rest[i], g) && InGroup(rest[j], g)
        ensures r(rest[i], rest[j])
      {
        assert rest[i] == steps[i + 1] && rest[j] == steps[j + 1];
      }
      forall m | m in rest && InGroup(x, g) && InGroup(m, g) ensures r(x, m) {
        var j :| 0 <= j < |rest| && rest[j] == m;
        assert steps[0] == x && steps[j + 1] == m;
      }
    }
  }

  /** Comparing the collected members of a group compares every pair of its steps. */
  lemma {:induction false} MembersPairs(r: Relation, steps: seq<Step>, g: string)
    ensures AllPairs(r, Members(steps, g)) <==> PairsWithin(r, steps, g)
  {
    if steps != [] {
      var x, rest := steps[0], steps[1..];
      var members := Members(rest, g);
      MembersPairs(r, rest, g);
      assert PairsWithin(r, steps, g) <==> PairsWithin(r, rest, g) && RelatedWithin(r, x, rest, g) by {
        assert steps == [x] + rest;
        PairsWithinCons(r, x, rest, g);
      }
      if InGroup(x, g) {
        assert Members(steps, g) == [x] + members;
        AllPairsCons(r, x, members);
        assert Related(r, x, members) <==> RelatedWithin(r, x, rest, g) by { MembersExact(rest, g); }
      } else {
        assert Members(steps, g) == members;
      }
    }
  }

  predicate QuietWithin(reg: Skillset, s: State, steps: seq<Step>, g: string) {
    PairsWithin((a, b) => Quiet(reg, s, a, b), steps, g)
  }

  predicate GroupsQuiet(reg: Skillset, s: State, steps: seq<Step>, groups: seq<string>) {
    forall g :: g in groups ==> QuietWithin(reg, s, steps, g)
  }

  lemma GroupExact(reg: Skillset, s: State, steps: seq<Step>, g: string)
    ensures ResourceIssues(reg, Members(steps, g), {}, []) == [] &&
            EffectConflicts(reg, Members(steps, g), s, map[]) == []
            <==> QuietWithin(reg, s, steps, g)
  {
    var members := Members(steps, g);
    assert Used([]) == {};
    ResourceIssuesExact(reg, members, []);
    EffectConflictsExact(reg, members, s, map[]);
    var r := (a, b) => Quiet(reg, s, a, b);
    MembersPairs(r, steps, g);
    assert AllPairs(r, members) <==>
      (forall i, j :: 0 <= i < j < |members| ==> !Clash(reg, members[i], members[j])) &&
      (forall i, j :: 0 <= i < j < |members| ==> BothAgree(reg, s, members[i], members[j]));
  }

  lemma {:induction false} GroupsExact(reg: Skillset, s: State, steps: seq<Step>, groups: seq<string>)
    ensures ParallelIssues(reg, steps, groups) == [] && ParallelEffectIssues(reg, steps, s, groups) == []
            <==> GroupsQuiet(reg, s, steps, groups)
  {
    if groups != [] {
      assert groups == [groups[0]] + groups[1..];
      GroupsExact(reg, s, steps, groups[1..]);
      GroupExact(reg, s, steps, groups[0]);
    }
  }

  lemma ValidMeansNoIssue(reg: Skillset, caps: Option<Capabilities>, now: real, plan: Plan, s: State)
    ensures Ground(reg, caps, now, plan, s).valid <==>
            && IssuesFrom(reg, caps, now, plan.steps, {}, s) == []
            && ParallelIssues(reg, plan.steps, GroupNames(plan.steps)) == []
            && ParallelEffectIssues(reg, plan.steps, s, GroupNames(plan.steps)) == []
  {
    var a := IssuesFrom(reg, caps, now, plan.steps, {}, s);
    var b := ParallelIssues(reg, plan.steps, GroupNames(plan.steps));
    var c := ParallelEffectIssues(reg, plan.steps, s, GroupNames(plan.steps));
    var all := AllIssues(reg, caps, now, plan, s);
    assert |all| == |a| + |b| + |c|;
    if all != [] { assert all[0] in Unique(all); }
    if Unique(all) != [] { assert Unique(all)[0] in all; }
  }

  lemma StepsExact(reg: Skillset, caps: Option<Capabilities>, now: real, steps: seq<Step>, s: State)
    ensures IssuesFrom(reg, caps, now, steps, {}, s) == [] <==>
            DistinctIds(steps) && EachStepGrounded(reg, caps, now, steps, s)
  {
    assert steps[0..] == steps && Ids(steps[..0]) == {};
    IssuesFromExact(reg, caps, now, steps, 0, s);
    DistinctIdsExact(steps);
    assert forall i :: 0 <= i < |steps| ==> (GoodAt(reg, caps, now, steps, s, i) <==>
      steps[i].id !in Ids(steps[..i]) && StepGrounded(reg, caps, now, steps[i], SimAt(reg, steps, s, i)));
  }

  /** The grounder accepts a plan exactly when the plan is grounded. */
  lemma GroundExact(reg: Skillset, caps: Option<Capabilities>, now: real, plan: Plan, s: State)
    ensures Ground(reg, caps, now, plan, s).valid <==> Grounded(reg, caps, now, plan, s)
  {
    var steps := plan.steps;
    ValidMeansNoIssue(reg, caps, now, plan, s);
    StepsExact(reg, caps, now, steps, s);
    GroupsExact(reg, s, steps, GroupNames(steps));
    if EachStepGrounded(reg, caps, now, steps, s) {
      GroundedStepsAreCallable(reg, caps, now, steps, s);
      GroupedPairs(reg, s, steps);
    }
  }

  lemma GroundedStepsAreCallable(reg: Skillset, caps: Option<Capabilities>, now: real, steps: seq<Step>, s: State)
    requires EachStepGrounded(reg, caps, now, steps, s)
    ensures forall p :: p in steps ==> Callable(reg, p)
  {
    forall p | p in steps ensures Callable(reg, p) {
      var i :| 0 <= i < |steps| && steps[i] == p;
      assert StepGrounded(reg, caps, now, steps[i], SimAt(reg, steps, s, i));
    }
  }

  lemma DistinctIdsExact(steps: seq<Step>)
    ensures DistinctIds(steps) <==> forall i :: 0 <= i < |steps| ==> steps[i].id !in Ids(steps[..i])
  {
    forall i, j | 0 <= i < j < |steps| ensures steps[i].id in Ids(steps[..j]) {
      assert steps[..j][i] == steps[i];
    }
    forall j | 0 <= j < |steps| && steps[j].id in Ids(steps[..j])
      ensures exists i :: 0 <= i < j && steps[i].id == steps[j].id
    {
      var p :| p in steps[..j] && p.id == steps[j].id;
      var i :| 0 <= i < j && steps[i] == p;
    }
  }

  lemma QuietIsParallelizable(reg: Skillset, s: State, a: Step, b: Step)
    requires Knows(reg, a.skill) && Knows(reg, b.skill)
    ensures Quiet(reg, s, a, b) <==> Parallelizable(reg, s, a, b)
  {
  }

  lemma GroupedPairs(reg: Skillset, s: State, steps: seq<Step>)
    requires forall p :: p in steps ==> Knows(reg, p.skill)
    ensures GroupsQuiet(reg, s, steps, GroupNames(steps)) <==>
            GroupsParallelizable(reg, steps, s)
  {
    forall i, j | 0 <= i < j < |steps|
      ensures Quiet(reg, s, steps[i], steps[j]) <==> Parallelizable(reg, s, steps[i], steps[j])
    {
      QuietIsParallelizable(reg, s, steps[i], steps[j]);
    }
    if GroupsQuiet(reg, s, steps, GroupNames(steps)) {
      forall i, j | 0 <= i < j < |steps| && SameGroup(steps[i], steps[j])
        ensures Quiet(reg, s, steps[i], steps[j])
      {
        var g := steps[i].parallelGroup.value;
        assert InGroup(steps[i], g) && InGroup(steps[j], g);
        assert QuietWithin(reg, s, steps, g);
      }
    }
  }
}
