/** The goals that are projected from a plan: every field the plan predicts, and no other. */
module RunGoals {
  import opened Values
  import opened RobotState
  import opened Skills
  import opened Registry
  import opened Capability
  import opened Grounder
  import opened GrounderSpec
  import opened Executor
  import opened RunAdequacy

  /** The projection before step `i` that passes over steps whose effects raise. */
  function Foreseen(reg: Skillset, steps: seq<Step>, s: State, i: nat): State
    requires i <= |steps|
  {
    if i == 0 then s
    else
      var before := Foreseen(reg, steps, s, i - 1);
      if Predictable(reg, steps[i - 1], before) then Project(reg, before, steps[i - 1]) else before
  }

  /** Step `i` predicts a value for the field. */
  predicate Predicts(reg: Skillset, steps: seq<Step>, s: State, i: nat, field: string)
    requires i < |steps|
  {
    var before := Foreseen(reg, steps, s, i);
    && Predictable(reg, steps[i], before)
    && field in StepEffects(reg, steps[i], before) && StepEffects(reg, steps[i], before)[field].Some?
  }

  predicate HasGoal(goals: Goals, field: string) { exists g :: g in goals && g.0 == field }

  lemma {:induction false} PutGoalFields(goals: Goals, field: string, value: Value, f: string)
    ensures HasGoal(PutGoal(goals, field, value), f) <==> HasGoal(goals, f) || f == field
  {
    var r := PutGoal(goals, field, value);
    if goals == [] {
      assert r[0] in r;
    } else {
      var rest := goals[1..];
      assert goals == [goals[0]] + rest;
      PutGoalFields(rest, field, value, f);
      if goals[0].0 == field {
        assert r == [(field, value)] + rest;
      } else {
        assert r == [goals[0]] + PutGoal(rest, field, value);
      }
    }
  }

  lemma {:induction false} UpdateGoalsFields(goals: Goals, keys: seq<string>, effects: Changes, f: string)
    ensures HasGoal(UpdateGoals(goals, keys, effects), f) <==>
            HasGoal(goals, f) || (f in keys && f in effects && effects[f].Some?)
    decreases |keys|
  {
    hide HasGoal;
    if keys != [] {
      var k := keys[0];
      assert f in keys <==> f == k || f in keys[1..];
      if k in effects && effects[k].Some? {
        PutGoalFields(goals, k, effects[k].value, f);
        UpdateGoalsFields(PutGoal(goals, k, effects[k].value), keys[1..], effects, f);
      } else {
        UpdateGoalsFields(goals, keys[1..], effects, f);
      }
    }
  }

  lemma StepGoalsFields(reg: Skillset, goals: Goals, step: Step, s: State, f: string)
    requires Knows(reg, step.skill)
    ensures HasGoal(StepGoals(reg, goals, step, s), f) <==>
            HasGoal(goals, f) || (f in StepEffects(reg, step, s) && StepEffects(reg, step, s)[f].Some?)
  {
    hide HasGoal;
    var sk := Lookup(reg, step.skill).value;
    EffectsDictionary(sk.effects, step.arguments, s);
    UpdateGoalsFields(goals, EffectKeys(sk, step.arguments), ExpectedEffects(sk, step.arguments, s), f);
  }

  lemma {:induction false} GoalFoldFields(reg: Skillset, steps: seq<Step>, s: State, k: nat, goals: Goals, f: string)
    requires k <= |steps|
    ensures HasGoal(GoalFold(reg, steps[k..], Foreseen(reg, steps, s, k), goals), f) <==>
            HasGoal(goals, f) || exists i :: k <= i < |steps| && Predicts(reg, steps, s, i, f)
    decreases |steps| - k
  {
    hide HasGoal, StepEffects, StepGoals, Predictable, Project;
    if k < |steps| {
      var sim := Foreseen(reg, steps, s, k);
      assert steps[k..][0] == steps[k] && steps[k..][1..] == steps[k + 1..];
      if Predictable(reg, steps[k], sim) {
        KnowsPredictable(reg, steps[k], sim);
        StepGoalsFields(reg, goals, steps[k], sim, f);
        GoalFoldFields(reg, steps, s, k + 1, StepGoals(reg, goals, steps[k], sim), f);
      } else {
        GoalFoldFields(reg, steps, s, k + 1, goals, f);
      }
      assert Predicts(reg, steps, s, k, f) <==>
             Predictable(reg, steps[k], sim) && f in StepEffects(reg, steps[k], sim) &&
             StepEffects(reg, steps[k], sim)[f].Some?;
    }
  }

  lemma KnowsPredictable(reg: Skillset, step: Step, s: State)
    requires Predictable(reg, step, s)
    ensures Knows(reg, step.skill)
  {
  }

  // ---- Their values -------------------------------------------------------------------------------------

  /** A goal has the value its field is left with by the projection. */
  predicate GoalsCurrent(goals: Goals, s: State) {
    && (forall g :: g in goals ==> Raw(s, g.0) == Some(g.1))
    && (forall i, j :: 0 <= i < j < |goals| ==> goals[i].0 != goals[j].0)
  }

  /** Every effect of the step has a value. */
  predicate AllValued(reg: Skillset, step: Step, s: State) {
    var effects := StepEffects(reg, step, s);
    forall k :: k in effects ==> effects[k].Some?
  }

  /** Every step that does not raise predicts values only. */
  predicate EachValued(reg: Skillset, steps: seq<Step>, s: State) {
    forall i :: 0 <= i < |steps| ==> AllValued(reg, steps[i], Foreseen(reg, steps, s, i))
  }

  lemma {:induction false} GoalFoldCurrent(reg: Skillset, steps: seq<Step>, s: State, k: nat, goals: Goals)
    requires k <= |steps| && GoalsCurrent(goals, Foreseen(reg, steps, s, k)) && EachValued(reg, steps, s)
    ensures GoalsCurrent(GoalFold(reg, steps[k..], Foreseen(reg, steps, s, k), goals),
                         Foreseen(reg, steps, s, |steps|))
    decreases |steps| - k
  {
    hide StepEffects, StepGoals, Predictable, Project, GoalsCurrent, AllValued;
    if k < |steps| {
      var sim := Foreseen(reg, steps, s, k);
      assert steps[k..][0] == steps[k] && steps[k..][1..] == steps[k + 1..];
      if Predictable(reg, steps[k], sim) {
        KnowsPredictable(reg, steps[k], sim);
        assert AllValued(reg, steps[k], sim);
        StepGoalsCurrent(reg, goals, steps[k], sim);
        GoalFoldCurrent(reg, steps, s, k + 1, StepGoals(reg, goals, steps[k], sim));
      } else {
        GoalFoldCurrent(reg, steps, s, k + 1, goals);
      }
    }
  }

  lemma StepGoalsCurrent(reg: Skillset, goals: Goals, step: Step, s: State)
    requires GoalsCurrent(goals, s) && Knows(reg, step.skill) && AllValued(reg, step, s)
    ensures GoalsCurrent(StepGoals(reg, goals, step, s), Project(reg, s, step))
  {
    assert GoalsHold(goals, s);
    StepGoalsHold(reg, goals, step, s);
  }

  /** The goals of a plan that states none: a field has one exactly when some step that does not
      raise predicts a value for it along the projection, and then it is the value the
      projection ends with. Stated goals are left as they are. */
  lemma ProjectedGoalsExact(reg: Skillset, plan: Plan, s: State)
    ensures var r := WithGoalState(reg, plan, s);
            && r.steps == plan.steps && r.metadata.goals.Some?
            && (plan.metadata.goals.Some? ==> r == plan)
            && (plan.metadata.goals.None? ==>
                  && r.metadata.projected
                  && (forall f :: HasGoal(r.metadata.goals.value, f) <==>
                        exists i :: 0 <= i < |plan.steps| && Predicts(reg, plan.steps, s, i, f))
                  && (EachValued(reg, plan.steps, s) ==>
                        GoalsCurrent(r.metadata.goals.value, Foreseen(reg, plan.steps, s, |plan.steps|))))
  {
    hide GoalFold, Predicts, EachValued, Predictable;
    var steps, none: Goals := plan.steps, [];
    assert steps[0..] == steps;
    var goals := GoalFold(reg, steps, s, none);
    forall f ensures HasGoal(goals, f) <==> exists i :: 0 <= i < |steps| && Predicts(reg, steps, s, i, f) {
      GoalFoldFields(reg, steps, s, 0, none, f);
    }
    if EachValued(reg, steps, s) { GoalFoldCurrent(reg, steps, s, 0, none); }
  }

  // ---- When they are met ----------------------------------------------------------------------------------

  /** The final check passes exactly when every goal is confirmed by the evidence: present, not
      stale, without differing reports, and equal, or within a thousandth for a float. */
  lemma GoalsMetExact(plan: Plan, s: State)
    ensures GoalsMet(plan, s) <==>
            (plan.metadata.goals.Some? ==>
               forall g :: g in plan.metadata.goals.value ==> Confirms(s, g.0, g.1, 0.001))
  {
    hide Confirms, EpistemicValue, Within;
    if plan.metadata.goals.Some? {
      forall g | g in plan.metadata.goals.value ensures GoalMet(s, g) <==> Confirms(s, g.0, g.1, 0.001) {
        ConfirmsExactly(s, g.0, g.1, 0.001);
      }
    }
  }
}
