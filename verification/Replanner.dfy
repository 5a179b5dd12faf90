/** Goal-directed replanning (`planner/goal_replanner.py`). */
module Replanner {
  import opened Values
  import opened RobotState
  import opened Templates
  import opened Registry
  import opened Repairer

  const GOAL_TOLERANCE := 0.000001
  const REPLANNER := "GoalDirectedReplanner"

  function ReplanId(revision: int, n: nat): string {
    "replan_" + Decimal(revision + 1) + "_" + Digits(n)
  }

  /** One synthesized step per goal that is not met yet, along the projection. */
  function GoalSteps(reg: Skillset, goals: Goals, s: State, revision: int, excluded: set<string>,
                     done: seq<Step>): Option<seq<Step>>
    decreases |goals|
  {
    if goals == [] then Some(done)
    else
      var (field, target) := goals[0];
      if Within(Raw(s, field), target, GOAL_TOLERANCE) then
        GoalSteps(reg, goals[1..], s, revision, excluded, done)
      else
        match SynthesizeStep(reg, field, target, s, ReplanId(revision, |done| + 1), REPLANNER, excluded)
        case None => None
        case Some(step) =>
          GoalSteps(reg, goals[1..], Project(reg, s, step), revision, excluded, done + [step])
  }

  predicate SameArguments(a: Args, b: Args) {
    a.Keys == b.Keys && forall n :: n in a ==> PyEq(a[n], b[n])
  }

  /** Equality of the (skill, sorted arguments) signatures. */
  predicate SameSignature(a: seq<Step>, b: seq<Step>) {
    |a| == |b| &&
    forall i :: 0 <= i < |a| ==> a[i].skill == b[i].skill && SameArguments(a[i].arguments, b[i].arguments)
  }

  function Replan(reg: Skillset, previous: Plan, s: State): Option<Plan> {
    match previous.metadata.goals
    case None => None
    case Some(goals) =>
      if goals == [] then None
      else
        match GoalSteps(reg, goals, s, previous.revision, previous.metadata.blocked, [])
        case None => None
        case Some(steps) =>
          if SameSignature(steps, previous.steps) then None
          else Some(previous.(steps := steps, revision := previous.revision + 1))
  }

  lemma {:induction false} GoalStepsAvoidBlocked(
    reg: Skillset, goals: Goals, s: State, revision: int, excluded: set<string>, done: seq<Step>)
    requires WellFormedSkillset(reg)
    requires forall p :: p in done ==> Callable(reg, p) && p.skill !in excluded
    ensures var r := GoalSteps(reg, goals, s, revision, excluded, done);
            r.Some? ==> forall p :: p in r.value ==> Callable(reg, p) && p.skill !in excluded
    decreases |goals|
  {
    if goals != [] {
      var (field, target) := goals[0];
      if Within(Raw(s, field), target, GOAL_TOLERANCE) {
        GoalStepsAvoidBlocked(reg, goals[1..], s, revision, excluded, done);
      } else {
        var id := ReplanId(revision, |done| + 1);
        var step := SynthesizeStep(reg, field, target, s, id, REPLANNER, excluded);
        if step.Some? {
          CandidateCallable(reg, field, target, s, id, REPLANNER, excluded, step.value);
          GoalStepsAvoidBlocked(reg, goals[1..], Project(reg, s, step.value), revision, excluded,
                                done + [step.value]);
        }
      }
    }
  }

  /** A new plan uses no blocked skill and keeps the metadata. When the previous plan contains
      a blocked skill - the one that just failed - the structural-change test cannot reject it. */
  lemma ReplanAvoidsBlocked(reg: Skillset, previous: Plan, s: State)
    requires WellFormedSkillset(reg)
    ensures var r := Replan(reg, previous, s);
            r.Some? ==>
              && (forall p :: p in r.value.steps ==>
                    Callable(reg, p) && p.skill !in previous.metadata.blocked)
              && r.value.metadata == previous.metadata
              && r.value.revision == previous.revision + 1
              && !SameSignature(r.value.steps, previous.steps)
    ensures (exists p :: p in previous.steps && p.skill in previous.metadata.blocked) ==>
              var goals := previous.metadata.goals;
              (Replan(reg, previous, s).Some? <==>
                 goals.Some? && goals.value != [] &&
                 GoalSteps(reg, goals.value, s, previous.revision, previous.metadata.blocked, []).Some?)
  {
    var goals := previous.metadata.goals;
    if goals.Some? && goals.value != [] {
      var blocked := previous.metadata.blocked;
      GoalStepsAvoidBlocked(reg, goals.value, s, previous.revision, blocked, []);
      var steps := GoalSteps(reg, goals.value, s, previous.revision, blocked, []);
      if steps.Some? {
        if p :| p in previous.steps && p.skill in blocked {
          var i :| 0 <= i < |previous.steps| && previous.steps[i] == p;
          assert i < |steps.value| ==> steps.value[i] in steps.value;
          assert !SameSignature(steps.value, previous.steps);
        }
      }
    }
  }

  /** The replanner as the source runs it. */
  method GoalDirectedReplan(reg: Skillset, previous: Plan, s: State) returns (r: Option<Plan>)
    ensures r == Replan(reg, previous, s)
  {
    if previous.metadata.goals.None? || previous.metadata.goals.value == [] {
      return None;
    }
    var goals := previous.metadata.goals.value;
    var excluded := previous.metadata.blocked;
    var steps: seq<Step>, state := [], s;
    for i := 0 to |goals|
      invariant GoalSteps(reg, goals, s, previous.revision, excluded, []) ==
                GoalSteps(reg, goals[i..], state, previous.revision, excluded, steps)
    {
      assert goals[i..][0] == goals[i] && goals[i..][1..] == goals[i + 1..];
      var (field, target) := goals[i];
      if !Within(Raw(state, field), target, GOAL_TOLERANCE) {
        var candidates := FindCandidates(reg, field, target, state,
          ReplanId(previous.revision, |steps| + 1), REPLANNER, excluded);
        if candidates == [] {
          return None;
        }
        steps := steps + [candidates[0]];
        state := Project(reg, state, candidates[0]);
      }
    }
    assert goals[|goals|..] == [];
    if SameSignature(steps, previous.steps) {
      return None;
    }
    return Some(previous.(steps := steps, revision := previous.revision + 1));
  }
}
