/** The goals a repaired plan claims are the ones its own projection establishes. */
module RepairGoals {
  import opened Values
  import opened RobotState
  import opened Skills
  import opened Registry
  import opened Capability
  import opened Grounder
  import opened GrounderSpec
  import opened Repairer
  import opened RepairSoundness
  import opened RepairTheorems

  /** What the effects of the steps, projected one after the other, establish. */
  function GoalsAlong(reg: Skillset, steps: seq<Step>, s: State): Goals {
    if steps == [] then []
    else
      var n := |steps| - 1;
      StepGoals(reg, GoalsAlong(reg, steps[..n], s), steps[n], SimAt(reg, steps, s, n))
  }

  predicate Tracked(c: Context, s: State, p: Progress) {
    p.goals == GoalsAlong(c.reg, p.steps, s)
  }

  lemma {:induction false} SimOfPrefix(reg: Skillset, steps: seq<Step>, step: Step, s: State, i: nat)
    requires i <= |steps|
    ensures SimAt(reg, steps + [step], s, i) == SimAt(reg, steps, s, i)
  {
    if i > 0 { SimOfPrefix(reg, steps, step, s, i - 1); }
  }

  lemma RunEnds(c: Context, s: State, steps: seq<Step>, t: State)
    requires Runs(c, s, steps, t)
    ensures t == SimAt(c.reg, steps, s, |steps|)
  {
    RunsAt(c, s, steps, t, |steps|);
  }

  /** `step` does what `original` does. */
  lemma TracksOne(c: Context, s: State, p: Progress, original: Step, step: Step)
    requires Runs(c, s, p.steps, p.sim) && Tracked(c, s, p)
    requires step.skill == original.skill && step.arguments == original.arguments
    ensures StepGoals(c.reg, p.goals, original, p.sim) == GoalsAlong(c.reg, p.steps + [step], s)
  {
    hide SimAt, Runs;
    var all, n := p.steps + [step], |p.steps|;
    RunEnds(c, s, p.steps, p.sim);
    SimOfPrefix(c.reg, p.steps, step, s, n);
    assert all[..n] == p.steps && all[n] == step;
  }

  lemma {:induction false} InsertAllTracks(c: Context, failure: Evaluation, repairs: seq<Step>, s: State, t: State,
                                           p: Progress)
    requires Runs(c, s, p.steps, p.sim) && Runs(c, p.sim, repairs, t) && Tracked(c, s, p)
    requires forall r :: r in repairs ==> Admissible(c, r)
    ensures var q := InsertAll(c, failure, repairs, p); q.Some? ==> Tracked(c, s, q.value)
    decreases |repairs|
  {
    hide Tracked, Admissible;
    if repairs != [] && p.serial + 1 <= c.limits.maxInsertions {
      InsertSound(c, failure, repairs[0], s, p);
      InsertTracks(c, failure, repairs[0], s, p);
      InsertAllTracks(c, failure, repairs[1..], s, t, Insert(c, failure, repairs[0], p));
    }
  }

  lemma InsertTracks(c: Context, failure: Evaluation, step: Step, s: State, p: Progress)
    requires Runs(c, s, p.steps, p.sim) && Tracked(c, s, p)
    ensures Tracked(c, s, Insert(c, failure, step, p))
  {
    hide Runs, GoalsAlong, StepGoals;
    var repair := Renamed(step, p.serial + 1, failure);
    TracksOne(c, s, p, repair, repair);
  }

  lemma MendTracks(c: Context, failure: Evaluation, s: State, p: Progress)
    requires WellFormedSkillset(c.reg) && Runs(c, s, p.steps, p.sim) && Tracked(c, s, p)
    ensures var a := Mend(c, failure, p); a.progress.Some? ==> Tracked(c, s, a.progress.value)
  {
    hide Runs, GoalsAlong, Search, InsertAll, Admissible, FactSatisfied;
    var o := Search(c, failure.field, failure.expected, p.sim, {}, 1, p.stats);
    SearchSound(c, failure.field, failure.expected, p.sim, {}, 1, p.stats);
    if o.found.Some? {
      InsertAllTracks(c, failure, o.found.value.steps, s, o.found.value.state, p);
    }
  }

  lemma {:induction false} MendAllTracks(c: Context, evals: seq<Evaluation>, s: State, p: Progress)
    requires WellFormedSkillset(c.reg) && Runs(c, s, p.steps, p.sim) && Tracked(c, s, p)
    ensures var a := MendAll(c, evals, p); a.progress.Some? ==> Tracked(c, s, a.progress.value)
    decreases |evals|
  {
    hide Runs, Tracked, Mend, WellFormedSkillset;
    if evals != [] {
      if evals[0].Satisfied() {
        MendAllTracks(c, evals[1..], s, p);
      } else {
        var block := MendSound(c, evals[0], s, p);
        MendTracks(c, evals[0], s, p);
        if Mend(c, evals[0], p).progress.Some? {
          MendAllTracks(c, evals[1..], s, Mend(c, evals[0], p).progress.value);
        }
      }
    }
  }

  lemma {:induction false} RepairStepsTracks(c: Context, steps: seq<Step>, s: State, p: Progress)
    requires WellFormedSkillset(c.reg) && Runs(c, s, p.steps, p.sim) && Tracked(c, s, p)
    requires forall o :: o in steps && Knows(c.reg, o.skill) ==> Callable(c.reg, o)
    ensures var a := RepairSteps(c, steps, p); a.progress.Some? ==> Tracked(c, s, a.progress.value)
    decreases |steps|
  {
    hide Runs, GoalsAlong, StepGoals, MendAll, WellFormedSkillset;
    if steps != [] && Knows(c.reg, steps[0].skill) {
      var sk := Lookup(c.reg, steps[0].skill).value;
      var evals := EvaluatePreconditions(sk, p.sim, steps[0].arguments, c.now);
      var block := MendAllSound(c, evals, s, p);
      MendAllTracks(c, evals, s, p);
      var a := MendAll(c, evals, p);
      if a.progress.Some? && PreconditionsHold(sk, a.progress.value.sim, steps[0].arguments, c.now) {
        AppendRuns(c, s, a.progress.value, steps[0]);
        TracksOne(c, s, a.progress.value, steps[0], Ungrouped(steps[0]));
        RepairStepsTracks(c, steps[1..], s, Append(c, steps[0], a.progress.value));
      }
    }
  }

  /** A plan whose goals were projected gets, when it is repaired, exactly the goals that the
      repaired plan's own steps project, inserted ones included; stated goals are kept. */
  lemma RepairedGoals(reg: Skillset, limits: Limits, caps: Option<Capabilities>, reported: real, now: real,
                      plan: Plan, s: State)
    requires WellFormedSkillset(reg)
    ensures var r := Repair(reg, limits, now, plan, s, Ground(reg, caps, reported, plan, s).RequiresStop());
            r.Some? ==>
              r.value.metadata.goals ==
                if plan.metadata.projected then Some(GoalsAlong(reg, r.value.steps, s)) else plan.metadata.goals
  {
    hide Ground, RepairSteps, GoalsAlong;
    var c := RepairContext(reg, limits, now, plan);
    if !Ground(reg, caps, reported, plan, s).RequiresStop() {
      NoStopMeansCheckable(reg, caps, reported, plan, s);
      var p := Progress([], s, [], 0, NO_STATS);
      assert Tracked(c, s, p) by { NothingAlong(reg, s); }
      RepairStepsTracks(c, plan.steps, s, p);
    }
  }

  lemma NothingAlong(reg: Skillset, s: State)
    ensures GoalsAlong(reg, [], s) == []
  {
  }
}
