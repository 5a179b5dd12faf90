/** The grounder as the source runs it: loops that accumulate issues. */
module GrounderLoops {
  import opened Values
  import opened RobotState
  import opened Skills
  import opened Registry
  import opened Capability
  import opened Grounder
  import opened GrounderSpec

  lemma {:induction false} MembersAppend(steps: seq<Step>, x: Step, g: string)
    ensures Members(steps + [x], g) ==
            Members(steps, g) + if InGroup(x, g) then [x] else []
  {
    if steps == [] {
      assert (steps + [x])[1..] == [];
    } else {
      assert (steps + [x])[1..] == steps[1..] + [x];
      MembersAppend(steps[1..], x, g);
    }
  }

  /** Groups by name, and the order in which the names first appear. */
  method GroupSteps(steps: seq<Step>) returns (order: seq<string>, groups: map<string, seq<Step>>)
    ensures order == GroupNames(steps)
    ensures forall g :: g in groups <==> g in order
    ensures forall g :: g in groups ==> groups[g] == Members(steps, g)
  {
    order, groups := [], map[];
    for i := 0 to |steps|
      invariant order == GroupNames(steps[..i])
      invariant forall g :: g in groups <==> g in order
      invariant forall g :: g != "" ==>
        Members(steps[..i], g) == if g in groups then groups[g] else []
    {
      var step := steps[i];
      assert steps[..i + 1] == steps[..i] + [step] && steps[..i + 1][..i] == steps[..i];
      forall g ensures Members(steps[..i + 1], g) ==
                  Members(steps[..i], g) + if InGroup(step, g) then [step] else [] {
        MembersAppend(steps[..i], step, g);
      }
      if step.parallelGroup.Some? && step.parallelGroup.value != "" {
        var g := step.parallelGroup.value;
        if g !in groups {
          order := order + [g];
          groups := groups[g := [step]];
        } else {
          groups := groups[g := groups[g] + [step]];
        }
      }
    }
    assert steps[..|steps|] == steps;
  }

  /** `check_parallel`: per group, each member against the resources used so far and
      against every earlier member. */
  method CheckParallel(reg: Skillset, steps: seq<Step>) returns (out: seq<Issue>)
    ensures out == ParallelIssues(reg, steps, GroupNames(steps))
  {
    hide ResourceIssues, Members;
    var order, groups := GroupSteps(steps);
    out := [];
    for i := 0 to |order|
      invariant ParallelIssues(reg, steps, order) == out + ParallelIssues(reg, steps, order[i..])
    {
      assert order[i..][1..] == order[i + 1..];
      var members := groups[order[i]];
      var found := CheckGroup(reg, members);
      out := out + found;
    }
  }

  method CheckGroup(reg: Skillset, members: seq<Step>) returns (out: seq<Issue>)
    ensures out == ResourceIssues(reg, members, {}, [])
  {
    out := [];
    var used: set<string>, prior: seq<Skill> := {}, [];
    for j := 0 to |members|
      invariant ResourceIssues(reg, members, {}, []) ==
                out + ResourceIssues(reg, members[j..], used, prior)
    {
      var step := members[j];
      assert members[j..][1..] == members[j + 1..];
      var skill := Lookup(reg, step.skill);
      if skill.Some? {
        var own: seq<Issue> := [];
        if used * skill.value.resources != {} {
          own := [Issue(ParallelResource, step.id, "", true, None, None)];
        }
        own := own + BodyIssues(step.id, skill.value, prior);
        ghost var rest := ResourceIssues(reg, members[j + 1..], used + skill.value.resources, prior + [skill.value]);
        assert ResourceIssues(reg, members[j..], used, prior) == own + rest;
        assert out + (own + rest) == (out + own) + rest;
        out := out + own;
        used := used + skill.value.resources;
        prior := prior + [skill.value];
      }
    }
  }

  method CheckGroupEffects(reg: Skillset, members: seq<Step>, s: State) returns (out: seq<Issue>)
    ensures out == EffectConflicts(reg, members, s, map[])
  {
    out := [];
    var byField: Changes := map[];
    for j := 0 to |members|
      invariant EffectConflicts(reg, members, s, map[]) ==
                out + EffectConflicts(reg, members[j..], s, byField)
    {
      var step := members[j];
      assert members[j..][1..] == members[j + 1..];
      if Predictable(reg, step, s) {
        var skill := Lookup(reg, step.skill).value;
        var effects := ExpectedEffects(skill, step.arguments, s);
        var keys := ConflictingKeys(EffectKeys(skill, step.arguments), effects, byField);
        out := out + ConflictIssues(step.id, keys);
        byField := Record(byField, effects);
      }
    }
  }

  /** The sequential part: each step against the projection of the steps before it. */
  method CheckSteps(reg: Skillset, steps: seq<Step>, s: State, caps: Option<Capabilities>, now: real)
    returns (issues: seq<Issue>)
    ensures issues == IssuesFrom(reg, caps, now, steps, {}, s)
  {
    issues := [];
    var seen: set<string>, simulated := {}, s;
    for i := 0 to |steps|
      invariant IssuesFrom(reg, caps, now, steps, {}, s) ==
                issues + IssuesFrom(reg, caps, now, steps[i..], seen, simulated)
    {
      var step := steps[i];
      assert steps[i..][0] == step && steps[i..][1..] == steps[i + 1..];
      var own := StepIssues(reg, caps, now, step, seen, simulated);
      ghost var rest := IssuesFrom(reg, caps, now, steps[i + 1..], seen + {step.id},
                                   NextSim(reg, caps, step, simulated));
      assert issues + (own + rest) == (issues + own) + rest;
      issues := issues + own;
      seen := seen + {step.id};
      simulated := NextSim(reg, caps, step, simulated);
    }
  }

  method CheckEffects(reg: Skillset, steps: seq<Step>, s: State) returns (out: seq<Issue>)
    ensures out == ParallelEffectIssues(reg, steps, s, GroupNames(steps))
  {
    hide EffectConflicts, Members;
    var order, groups := GroupSteps(steps);
    out := [];
    for i := 0 to |order|
      invariant ParallelEffectIssues(reg, steps, s, order) ==
                out + ParallelEffectIssues(reg, steps, s, order[i..])
    {
      assert order[i..][1..] == order[i + 1..];
      var found := CheckGroupEffects(reg, groups[order[i]], s);
      out := out + found;
    }
  }

  /** `EmbodiedPlanGrounder.ground`. It accepts exactly the grounded plans. */
  method GroundPlan(reg: Skillset, plan: Plan, s: State, caps: Option<Capabilities>, now: real)
    returns (report: Report)
    ensures report == Ground(reg, caps, now, plan, s)
    ensures report.valid <==> Grounded(reg, caps, now, plan, s)
  {
    var issues := CheckSteps(reg, plan.steps, s, caps, now);
    var parallel := CheckParallel(reg, plan.steps);
    var conflicts := CheckEffects(reg, plan.steps, s);
    var unique := Unique(issues + parallel + conflicts);
    report := Report(unique == [], unique);
    GroundExact(reg, caps, now, plan, s);
  }
}
