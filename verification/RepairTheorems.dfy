/** What a repaired plan is worth to the grounder, and what repair leaves alone. */
module RepairTheorems {
  import opened Values
  import opened RobotState
  import opened Templates
  import opened Skills
  import opened Registry
  import opened Capability
  import opened Grounder
  import opened GrounderSpec
  import opened Repairer
  import opened RepairBounds
  import opened RepairSoundness

  // ---- A report without a stop -------------------------------------------------------------

  lemma {:induction false} UncheckableStepStops(
    reg: Skillset, caps: Option<Capabilities>, now: real, steps: seq<Step>, seen: set<string>,
    sim: State, o: Step)
    requires o in steps && !Checkable(reg, caps, o)
    ensures exists i :: i in IssuesFrom(reg, caps, now, steps, seen, sim) && !i.repairable
    decreases |steps|
  {
    var first := StepIssues(reg, caps, now, steps[0], seen, sim);
    if steps[0] == o {
      var i := first[|first| - 1];
      assert i in first && !i.repairable;
      assert i in IssuesFrom(reg, caps, now, steps, seen, sim);
    } else {
      var rest := steps[1..];
      UncheckableStepStops(reg, caps, now, rest, seen + {steps[0].id}, NextSim(reg, caps, steps[0], sim), o);
      var i :| i in IssuesFrom(reg, caps, now, rest, seen + {steps[0].id}, NextSim(reg, caps, steps[0], sim))
               && !i.repairable;
      assert i in IssuesFrom(reg, caps, now, steps, seen, sim);
    }
  }

  lemma UncheckablePlanStops(reg: Skillset, caps: Option<Capabilities>, now: real, plan: Plan, s: State, o: Step)
    requires o in plan.steps && !Checkable(reg, caps, o)
    ensures Ground(reg, caps, now, plan, s).RequiresStop()
  {
    UncheckableStepStops(reg, caps, now, plan.steps, {}, s, o);
    var i :| i in IssuesFrom(reg, caps, now, plan.steps, {}, s) && !i.repairable;
    assert i in AllIssues(reg, caps, now, plan, s);
    assert i in Ground(reg, caps, now, plan, s).issues;
  }

  /** Unless the report requires a stop, every step is known, supported and well argued. */
  lemma NoStopMeansCheckable(reg: Skillset, caps: Option<Capabilities>, now: real, plan: Plan, s: State)
    requires !Ground(reg, caps, now, plan, s).RequiresStop()
    ensures forall o :: o in plan.steps ==> Checkable(reg, caps, o)
  {
    forall o | o in plan.steps ensures Checkable(reg, caps, o) {
      if !Checkable(reg, caps, o) { UncheckablePlanStops(reg, caps, now, plan, s, o); }
    }
  }

  // ---- A run is what the grounder simulates --------------------------------------------------

  lemma {:induction false} RunsAt(c: Context, s: State, steps: seq<Step>, t: State, i: nat)
    requires Runs(c, s, steps, t) && i <= |steps|
    ensures Runs(c, SimAt(c.reg, steps, s, i), steps[i..], t)
  {
    hide StepHolds, Callable, StepEffects;
    if i == 0 {
      assert steps[0..] == steps;
    } else {
      RunsAt(c, s, steps, t, i - 1);
      assert steps[i - 1..][0] == steps[i - 1] && steps[i - 1..][1..] == steps[i..];
    }
  }

  lemma RunsHolds(c: Context, s: State, steps: seq<Step>, t: State, i: nat)
    requires Runs(c, s, steps, t) && i < |steps|
    ensures Callable(c.reg, steps[i]) && StepHolds(c.reg, SimAt(c.reg, steps, s, i), steps[i], c.now)
  {
    RunsAt(c, s, steps, t, i);
    assert steps[i..][0] == steps[i];
  }

  /** The demands on a step that the repair search does not look at. */
  predicate Deliverable(reg: Skillset, caps: Option<Capabilities>, step: Step, sim: State) {
    Knows(reg, step.skill) &&
    var sk := Lookup(reg, step.skill).value;
    var effects := ExpectedEffects(sk, step.arguments, sim);
    && Unobstructed(sk, sim)
    && (forall k :: k in effects ==> effects[k].Some?)
    && (caps.Some? ==> BackendAccepts(caps.value, sk, step, effects))
    && (forall d :: d in step.expectedEffect ==> d.0 in effects && OptEq(effects[d.0], Some(d.1)))
  }

  predicate AllDeliverable(reg: Skillset, caps: Option<Capabilities>, steps: seq<Step>, s: State) {
    forall i :: 0 <= i < |steps| ==> Deliverable(reg, caps, steps[i], SimAt(reg, steps, s, i))
  }

  lemma RunGrounds(c: Context, caps: Option<Capabilities>, plan: Plan, s: State, t: State)
    requires Runs(c, s, plan.steps, t)
    requires forall p :: p in plan.steps ==> p.parallelGroup.None?
    ensures Grounded(c.reg, caps, c.now, plan, s) <==>
            DistinctIds(plan.steps) && AllDeliverable(c.reg, caps, plan.steps, s)
  {
    var steps := plan.steps;
    forall i | 0 <= i < |steps|
      ensures StepGrounded(c.reg, caps, c.now, steps[i], SimAt(c.reg, steps, s, i)) <==>
              Deliverable(c.reg, caps, steps[i], SimAt(c.reg, steps, s, i))
    {
      RunsHolds(c, s, steps, t, i);
    }
    assert GroupsParallelizable(c.reg, steps, s) by {
      forall i, j | 0 <= i < j < |steps| ensures !SameGroup(steps[i], steps[j]) {
        assert steps[i] in steps;
      }
    }
  }

  /** No precondition, argument or registration issue is left in a run. */
  predicate Harmless(code: Code) {
    !code.PreconditionFailed? && code != UnknownSkill && code != InvalidArguments &&
    code != ParallelResource && code != BodyConflict && code != ParallelEffect
  }

  lemma CheckableIssueCodes(sk: Skill, now: real, step: Step, sim: State)
    requires PreconditionsHold(sk, sim, step.arguments, now)
    ensures forall i :: i in CheckableIssues(sk, None, now, step, sim) ==> Harmless(i.code)
  {
    EvaluationsExact(sk, sim, step.arguments, now);
    assert PreconditionIssues(step.id, EvaluatePreconditions(sk, sim, step.arguments, now)) == [];
  }

  lemma {:induction false} RunIssueCodes(c: Context, s: State, steps: seq<Step>, t: State, seen: set<string>)
    requires Runs(c, s, steps, t)
    ensures forall i :: i in IssuesFrom(c.reg, None, c.now, steps, seen, s) ==> Harmless(i.code)
    decreases |steps|
  {
    if steps != [] {
      CheckableIssueCodes(Lookup(c.reg, steps[0].skill).value, c.now, steps[0], s);
      RunIssueCodes(c, Project(c.reg, s, steps[0]), steps[1..], t, seen + {steps[0].id});
    }
  }

  lemma {:induction false} WeaveUngrouped(c: Context, blocks: seq<seq<Step>>, originals: seq<Step>)
    requires |blocks| == |originals|
    requires forall b, r :: b in blocks && r in b ==> Inserted(c, r)
    ensures forall p :: p in Weave(blocks, originals) ==> p.parallelGroup.None?
    decreases |originals|
  {
    if originals != [] {
      assert blocks[0] in blocks;
      assert forall b :: b in blocks[1..] ==> b in blocks;
      WeaveUngrouped(c, blocks[1..], originals[1..]);
    }
  }

  /** The repair of a plan that its report allows to repair, with all that is known of it. */
  lemma RepairRuns(c: Context, caps: Option<Capabilities>, reported: real, plan: Plan, s: State)
    returns (blocks: seq<seq<Step>>)
    requires WellFormedSkillset(c.reg)
    ensures var a := RepairAttempt(c, plan, s, Ground(c.reg, caps, reported, plan, s).RequiresStop());
            a.progress.Some? ==>
              Wove(c, s, Progress([], s, [], 0, NO_STATS), a.progress.value, blocks, plan.steps) &&
              EachServes(c.reg, plan.steps, blocks)
  {
    blocks := [];
    if !Ground(c.reg, caps, reported, plan, s).RequiresStop() {
      NoStopMeansCheckable(c.reg, caps, reported, plan, s);
      blocks := RepairStepsSound(c, plan.steps, s, Progress([], s, [], 0, NO_STATS));
    }
  }

  /** Repair soundness. Whenever the report was made, re-grounding the repaired plan on the
      state and clock of the repair finds no unsatisfied precondition and no parallel
      conflict, although later insertions may undo earlier ones; and for any backend it is
      accepted exactly when step ids are distinct and every step meets the demands the search
      does not look at. */
  lemma RepairSound(reg: Skillset, limits: Limits, caps: Option<Capabilities>, again: Option<Capabilities>,
                    reported: real, now: real, plan: Plan, s: State)
    requires WellFormedSkillset(reg)
    ensures var report := Ground(reg, caps, reported, plan, s);
            var r := Repair(reg, limits, now, plan, s, report.RequiresStop());
            r.Some? ==>
              && (forall i :: i in Ground(reg, None, now, r.value, s).issues ==> Harmless(i.code))
              && (Ground(reg, again, now, r.value, s).valid <==>
                    DistinctIds(r.value.steps) && AllDeliverable(reg, again, r.value.steps, s))
  {
    var c := RepairContext(reg, limits, now, plan);
    var blocks := RepairRuns(c, caps, reported, plan, s);
    var r := Repair(reg, limits, now, plan, s, Ground(reg, caps, reported, plan, s).RequiresStop());
    if r.Some? {
      var q := RepairAttempt(c, plan, s, Ground(reg, caps, reported, plan, s).RequiresStop()).progress.value;
      assert r.value.steps == Weave(blocks, plan.steps);
      WeaveUngrouped(c, blocks, plan.steps);
      RunGrounds(c, again, r.value, s, q.sim);
      GroundExact(reg, again, now, r.value, s);
      RunIssueCodes(c, s, r.value.steps, q.sim, {});
      UngroupedHasNoParallelIssue(reg, r.value.steps, s);
    }
  }

  lemma {:induction false} UngroupedHasNoGroups(steps: seq<Step>)
    requires forall p :: p in steps ==> p.parallelGroup.None?
    ensures GroupNames(steps) == []
  {
    if steps != [] { UngroupedHasNoGroups(steps[..|steps| - 1]); }
  }

  lemma UngroupedHasNoParallelIssue(reg: Skillset, steps: seq<Step>, s: State)
    requires forall p :: p in steps ==> p.parallelGroup.None?
    ensures ParallelIssues(reg, steps, GroupNames(steps)) == []
    ensures ParallelEffectIssues(reg, steps, s, GroupNames(steps)) == []
  {
    UngroupedHasNoGroups(steps);
  }

  /** Repair is conservative: the original steps, ungrouped, stay in order; only blocks of
      admissible steps come between them, each attributed to a precondition of the step it is
      for; there are as many of those as the statistics say; the revision rises by one and
      nothing else of the plan changes but projected goals. */
  lemma RepairConservative(reg: Skillset, limits: Limits, caps: Option<Capabilities>, reported: real,
                           now: real, plan: Plan, s: State)
    returns (blocks: seq<seq<Step>>)
    requires WellFormedSkillset(reg)
    ensures var c := RepairContext(reg, limits, now, plan);
            var stop := Ground(reg, caps, reported, plan, s).RequiresStop();
            var r := Repair(reg, limits, now, plan, s, stop);
            r.Some? ==>
              && |blocks| == |plan.steps|
              && r.value.steps == Weave(blocks, plan.steps)
              && (forall b, x :: b in blocks && x in b ==> Inserted(c, x) && x.skill !in plan.metadata.blocked)
              && Numbered(Flat(blocks), 0) && EachServes(reg, plan.steps, blocks)
              && Total(blocks) == RepairAttempt(c, plan, s, stop).stats.selected <= limits.maxInsertions
              && r.value.goal == plan.goal && r.value.planId == plan.planId
              && r.value.revision == plan.revision + 1
              && r.value.metadata.blocked == plan.metadata.blocked
              && (!plan.metadata.projected ==> r.value.metadata == plan.metadata)
  {
    var c := RepairContext(reg, limits, now, plan);
    blocks := RepairRuns(c, caps, reported, plan, s);
    RepairWithinBudget(c, plan, s, Ground(reg, caps, reported, plan, s).RequiresStop());
    var a := RepairAttempt(c, plan, s, Ground(reg, caps, reported, plan, s).RequiresStop());
    if a.progress.Some? { assert [] + Weave(blocks, plan.steps) == Weave(blocks, plan.steps); }
  }

  // ---- What repair cannot do ---------------------------------------------------------------

  lemma {:induction false} SimKeepsEvidence(reg: Skillset, steps: seq<Step>, s: State, i: nat)
    requires i <= |steps|
    ensures var t := SimAt(reg, steps, s, i);
            t == s.(vals := t.vals)
  {
    if i > 0 { SimKeepsEvidence(reg, steps, s, i - 1); }
  }

  /** The step has a precondition on a field whose evidence is unusable. */
  predicate ReadsTainted(reg: Skillset, step: Step, s: State) {
    Knows(reg, step.skill) &&
    exists p :: p in Lookup(reg, step.skill).value.preconditions &&
                Tainted(s, Format(p.field, step.arguments))
  }

  lemma TaintedFails(reg: Skillset, step: Step, s: State, sim: State, now: real)
    requires ReadsTainted(reg, step, s) && sim == s.(vals := sim.vals)
    ensures !StepHolds(reg, sim, step, now)
  {
    var sk := Lookup(reg, step.skill).value;
    var p :| p in sk.preconditions && Tainted(s, Format(p.field, step.arguments));
    assert Tainted(sim, Format(p.field, step.arguments));
    assert !Evaluate(p, sim, step.arguments, now).Satisfied();
  }

  /** Evidence is never laundered by planning: no plan the grounder accepts contains a step
      with a precondition on a stale or contradictory field. */
  lemma GroundedNeverReadsTainted(reg: Skillset, caps: Option<Capabilities>, now: real, plan: Plan, s: State)
    requires Ground(reg, caps, now, plan, s).valid
    ensures forall p :: p in plan.steps ==> !ReadsTainted(reg, p, s)
  {
    GroundExact(reg, caps, now, plan, s);
    forall p | p in plan.steps ensures !ReadsTainted(reg, p, s) {
      var i :| 0 <= i < |plan.steps| && plan.steps[i] == p;
      assert StepGrounded(reg, caps, now, p, SimAt(reg, plan.steps, s, i));
      if ReadsTainted(reg, p, s) {
        SimKeepsEvidence(reg, plan.steps, s, i);
        TaintedFails(reg, p, s, SimAt(reg, plan.steps, s, i), now);
      }
    }
  }

  /** ... and neither does any plan that repair returns. */
  lemma RepairedNeverReadsTainted(reg: Skillset, limits: Limits, caps: Option<Capabilities>, reported: real,
                                  now: real, plan: Plan, s: State)
    requires WellFormedSkillset(reg)
    ensures var r := Repair(reg, limits, now, plan, s, Ground(reg, caps, reported, plan, s).RequiresStop());
            r.Some? ==> forall p :: p in r.value.steps ==> !ReadsTainted(reg, p, s)
  {
    var c := RepairContext(reg, limits, now, plan);
    var blocks := RepairRuns(c, caps, reported, plan, s);
    var a := RepairAttempt(c, plan, s, Ground(reg, caps, reported, plan, s).RequiresStop());
    if a.progress.Some? {
      var q := a.progress.value;
      forall p | p in q.steps ensures !ReadsTainted(reg, p, s) {
        var i :| 0 <= i < |q.steps| && q.steps[i] == p;
        RunsHolds(c, s, q.steps, q.sim, i);
        SimKeepsEvidence(reg, q.steps, s, i);
        if ReadsTainted(reg, p, s) { TaintedFails(reg, p, s, SimAt(reg, q.steps, s, i), now); }
      }
    }
  }

  /** RESOURCE_BUSY is reported as repairable, but projection never frees a resource: a plan
      with a step that needs a busy one is never valid, before repair or after. */
  lemma BusyResourceIsNeverRepaired(reg: Skillset, caps: Option<Capabilities>, now: real, plan: Plan,
                                    s: State, p: Step)
    requires p in plan.steps && Knows(reg, p.skill)
    requires s.active * Lookup(reg, p.skill).value.resources != {}
    ensures !Ground(reg, caps, now, plan, s).valid
  {
    GroundExact(reg, caps, now, plan, s);
    var i :| 0 <= i < |plan.steps| && plan.steps[i] == p;
    SimKeepsEvidence(reg, plan.steps, s, i);
    assert !StepGrounded(reg, caps, now, p, SimAt(reg, plan.steps, s, i));
  }
}
