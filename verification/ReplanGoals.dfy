/** What a replanned plan achieves: each goal in turn is met already, or by the next step. */
module ReplanGoals {
  import opened Values
  import opened RobotState
  import opened Templates
  import opened Skills
  import opened Registry
  import opened GrounderSpec
  import opened RunAdequacy
  import opened Repairer
  import opened Replanner
  import opened RepairIds
  import opened DefaultSkills
  import opened MockContracts

  // ---- A synthesised step and its projection -----------------------------------------------------

  lemma {:induction false} CallFromEffect(sk: Skill, effects: seq<Effect>, field: string, target: Value, s: State)
    returns (e: Effect)
    requires SynthesizeCall(sk, effects, field, target, s).Some?
    ensures e in effects && SynthesizeArguments(e, field, target, s) == SynthesizeCall(sk, effects, field, target, s)
  {
    var args := SynthesizeArguments(effects[0], field, target, s);
    if args.Some? && ValidArgs(sk, args.value) {
      e := effects[0];
    } else {
      e := CallFromEffect(sk, effects[1..], field, target, s);
    }
  }

  lemma {:induction false} CandidateFromSkill(reg: Skillset, field: string, target: Value, s: State, id: string,
                                              author: string, excluded: set<string>, c: Step)
    returns (sk: Skill)
    requires c in SynthesizeCandidates(reg, field, target, s, id, author, excluded)
    ensures sk in reg && sk.name == c.skill && SynthesizeCall(sk, sk.effects, field, target, s) == Some(c.arguments)
  {
    var rest := SynthesizeCandidates(reg[1..], field, target, s, id, author, excluded);
    if c in rest {
      sk := CandidateFromSkill(reg[1..], field, target, s, id, author, excluded, c);
    } else {
      sk := reg[0];
    }
  }

  /** An effect that is conditional on an argument is conditional on its own operand. */
  predicate SelfConditional(sk: Skill) {
    forall e :: e in sk.effects ==> e.whenArgument.None? || e.whenArgument == e.argument
  }

  /** What a call predicts for a field is settled by the one effect that writes it. */
  ghost predicate Decisive(reg: Skillset) {
    && WellFormedSkillset(reg)
    && (forall sk :: sk in reg ==> SelfConditional(sk))
    && (forall step: Step :: Callable(reg, step) ==>
          SingleWriters(Lookup(reg, step.skill).value, step.arguments))
  }

  lemma EqualIsWithin(actual: Option<Value>, target: Value, tolerance: real)
    requires OptEq(actual, Some(target)) && 0.0 <= tolerance
    ensures Within(actual, target, tolerance)
  {
  }

  lemma OwnerIs(sk: Skill, args: Args, e: Effect)
    requires e in sk.effects && Active(e, args) && SingleWriters(sk, args)
    ensures SpecFor(sk.effects, args, Format(e.field, args)) == Some(e)
  {
    WriterOwns(sk.effects, args, e);
    EffectsDictionary(sk.effects, args, State(map[], {}, map[], {}, map[], Unreadable));
  }

  lemma ArgumentsActivate(e: Effect, field: string, target: Value, s: State)
    requires SynthesizeArguments(e, field, target, s).Some? && (e.whenArgument.None? || e.whenArgument == e.argument)
    ensures Active(e, SynthesizeArguments(e, field, target, s).value)
  {
  }

  /** Whatever is synthesised for a fact meets it in projection. */
  lemma SynthesisedStepMeets(reg: Skillset, field: string, target: Value, s: State, id: string, author: string,
                             excluded: set<string>, step: Step)
    requires Decisive(reg) && SynthesizeStep(reg, field, target, s, id, author, excluded) == Some(step)
    ensures Callable(reg, step) && step.skill !in excluded && step.expectedEffect == [(field, target)] && step.id == id
    ensures OptEq(Raw(Project(reg, s, step), field), Some(target))
  {
    hide SynthesizeCall, SynthesizeCandidates, ValidArgs, SingleWriters, SynthesizeArguments, Format, WellFormed;
    CandidateCallable(reg, field, target, s, id, author, excluded, step);
    CandidateShape(reg, field, target, s, id, author, excluded, step);
    var sk := CandidateFromSkill(reg, field, target, s, id, author, excluded, step);
    LookupOf(reg, sk);
    var e := CallFromEffect(sk, sk.effects, field, target, s);
    var args := step.arguments;
    ArgumentsActivate(e, field, target, s);
    assert WellFormedEffect(sk, e) by { EffectIsWellFormed(sk, e); }
    SynthesisInverts(sk, e, field, target, s);
    OwnerIs(sk, args, e);
    EffectsDictionary(sk.effects, args, s);
    assert StepEffects(reg, step, s)[field] == ExpectedValue(e, args, s);
  }

  lemma EffectIsWellFormed(sk: Skill, e: Effect)
    requires WellFormed(sk) && e in sk.effects
    ensures WellFormedEffect(sk, e)
  {
  }

  // ---- Goals in order -------------------------------------------------------------------------------

  predicate MetAt(s: State, goal: (string, Value)) { Within(Raw(s, goal.0), goal.1, 0.000001) }

  /** The goal is dealt with between positions `from` and `to` of the plan: met where that part
      begins, it takes no step; otherwise it takes one, made for it, which meets it. */
  predicate Served(reg: Skillset, steps: seq<Step>, s: State, goal: (string, Value), start: nat, end: nat)
    requires start <= end <= |steps|
  {
    if MetAt(SimAt(reg, steps, s, start), goal) then end == start
    else
      && end == start + 1 && steps[start].expectedEffect == [goal]
      && MetAt(SimAt(reg, steps, s, end), goal)
  }

  predicate Marks(marks: seq<nat>, first: nat, last: nat, n: nat) {
    && |marks| == n + 1 && marks[0] == first && marks[n] == last
    && forall i, j :: 0 <= i <= j <= n ==> marks[i] <= marks[j]
  }

  /** Each goal is served where the previous one left off, and nothing else is in the plan. */
  predicate ServedInOrder(reg: Skillset, goals: Goals, steps: seq<Step>, s: State, marks: seq<nat>, first: nat) {
    && Marks(marks, first, |steps|, |goals|)
    && forall i :: 0 <= i < |goals| ==> Served(reg, steps, s, goals[i], marks[i], marks[i + 1])
  }

  lemma {:induction false} SimAgrees(reg: Skillset, a: seq<Step>, b: seq<Step>, s: State, i: nat)
    requires i <= |a| && i <= |b| && a[..i] == b[..i]
    ensures SimAt(reg, a, s, i) == SimAt(reg, b, s, i)
  {
    if i > 0 {
      assert a[..i - 1] == a[..i][..i - 1] && b[..i - 1] == b[..i][..i - 1];
      assert a[i - 1] == a[..i][i - 1] && b[i - 1] == b[..i][i - 1];
      SimAgrees(reg, a, b, s, i - 1);
    }
  }

  lemma {:induction false} GoalStepsExtend(reg: Skillset, goals: Goals, s: State, revision: int, excluded: set<string>,
                                           done: seq<Step>)
    ensures var r := GoalSteps(reg, goals, s, revision, excluded, done);
            r.Some? ==> |done| <= |r.value| && r.value[..|done|] == done
    decreases |goals|
  {
    if goals != [] {
      var (field, target) := goals[0];
      if Within(Raw(s, field), target, GOAL_TOLERANCE) {
        GoalStepsExtend(reg, goals[1..], s, revision, excluded, done);
      } else {
        var step := SynthesizeStep(reg, field, target, s, ReplanId(revision, |done| + 1), REPLANNER, excluded);
        if step.Some? {
          GoalStepsExtend(reg, goals[1..], Project(reg, s, step.value), revision, excluded, done + [step.value]);
          var r := GoalSteps(reg, goals, s, revision, excluded, done);
          if r.Some? { assert r.value[..|done|] == r.value[..|done| + 1][..|done|]; }
        }
      }
    }
  }

  /** One more goal in front. */
  lemma ServesFirst(reg: Skillset, goals: Goals, steps: seq<Step>, s: State, first: nat, marks: seq<nat>)
    returns (all: seq<nat>)
    requires goals != [] && marks != [] && first <= marks[0] <= |steps|
    requires Served(reg, steps, s, goals[0], first, marks[0])
    requires ServedInOrder(reg, goals[1..], steps, s, marks, marks[0])
    ensures ServedInOrder(reg, goals, steps, s, all, first)
  {
    hide Served;
    all := [first] + marks;
    forall i | 0 <= i < |goals| ensures Served(reg, steps, s, goals[i], all[i], all[i + 1]) {
      if i > 0 { assert goals[i] == goals[1..][i - 1]; }
    }
  }

  lemma {:induction false} GoalStepsServe(reg: Skillset, goals: Goals, s: State, at: State, revision: int,
                                          excluded: set<string>, done: seq<Step>)
    returns (marks: seq<nat>)
    requires Decisive(reg) && at == SimAt(reg, done, s, |done|)
    ensures var r := GoalSteps(reg, goals, at, revision, excluded, done);
            r.Some? ==> ServedInOrder(reg, goals, r.value, s, marks, |done|)
    decreases |goals|
  {
    hide Decisive, SimAt, Project, SynthesizeStep, Within;
    var n := |done|;
    marks := [n];
    var r := GoalSteps(reg, goals, at, revision, excluded, done);
    if goals != [] && r.Some? {
      var steps := r.value;
      var (field, target) := goals[0];
      GoalStepsExtend(reg, goals, at, revision, excluded, done);
      SimAgrees(reg, steps, done, s, n) by { assert done[..n] == done; }
      if Within(Raw(at, field), target, GOAL_TOLERANCE) {
        var rest := GoalStepsServe(reg, goals[1..], s, at, revision, excluded, done);
        marks := ServesFirst(reg, goals, steps, s, n, rest);
      } else {
        var id := ReplanId(revision, n + 1);
        var step := SynthesizeStep(reg, field, target, at, id, REPLANNER, excluded).value;
        var next, more := Project(reg, at, step), done + [step];
        SimNext(reg, done, step, s);
        GoalStepsExtend(reg, goals[1..], next, revision, excluded, more);
        SimAgrees(reg, steps, more, s, n + 1) by { assert more[..n + 1] == more; }
        assert steps[n] == steps[..n + 1][n] == step;
        SynthesisedStepMeets(reg, field, target, at, id, REPLANNER, excluded, step);
        EqualIsWithin(Raw(next, field), target, GOAL_TOLERANCE);
        var rest := GoalStepsServe(reg, goals[1..], s, next, revision, excluded, more);
        marks := ServesFirst(reg, goals, steps, s, n, rest);
      }
    }
  }

  lemma SimNext(reg: Skillset, done: seq<Step>, step: Step, s: State)
    ensures SimAt(reg, done + [step], s, |done| + 1) == Project(reg, SimAt(reg, done, s, |done|), step)
  {
    assert (done + [step])[..|done|] == done[..|done|];
    SimAgrees(reg, done + [step], done, s, |done|);
  }

  // ---- Where the plan ends -----------------------------------------------------------------------------

  /** No step from `i` on writes the field. */
  predicate Untouched(reg: Skillset, steps: seq<Step>, s: State, i: nat, field: string) {
    forall k :: i <= k < |steps| ==> field !in StepEffects(reg, steps[k], SimAt(reg, steps, s, k))
  }

  lemma {:induction false} UntouchedStays(reg: Skillset, steps: seq<Step>, s: State, i: nat, j: nat, field: string)
    requires i <= j <= |steps| && Untouched(reg, steps, s, i, field)
    ensures Raw(SimAt(reg, steps, s, j), field) == Raw(SimAt(reg, steps, s, i), field)
    decreases j
  {
    hide StepEffects;
    if i < j {
      UntouchedStays(reg, steps, s, i, j - 1, field);
      assert field !in StepEffects(reg, steps[j - 1], SimAt(reg, steps, s, j - 1));
    }
  }

  /** What a replan achieves. Its steps serve the goals in order along their own projection: a
      goal met by then costs no step, any other costs exactly the next one, which meets it.
      There are no other steps. So a goal whose field no later step rewrites is met where the
      projection of the new plan ends. */
  lemma ReplanServesGoals(reg: Skillset, previous: Plan, s: State)
    returns (marks: seq<nat>)
    requires Decisive(reg)
    ensures var r := Replan(reg, previous, s);
            r.Some? ==>
              && previous.metadata.goals.Some?
              && var (goals, steps) := (previous.metadata.goals.value, r.value.steps);
                 && ServedInOrder(reg, goals, steps, s, marks, 0)
                 && forall i :: 0 <= i < |goals| && Untouched(reg, steps, s, marks[i + 1], goals[i].0) ==>
                      MetAt(SimAt(reg, steps, s, |steps|), goals[i])
  {
    hide Decisive, SimAt, GoalSteps, Within, Untouched;
    marks := [];
    var r := Replan(reg, previous, s);
    if r.Some? {
      var goals, steps := previous.metadata.goals.value, r.value.steps;
      assert s == SimAt(reg, [], s, 0) by { SimStart(reg, [], s); }
      marks := GoalStepsServe(reg, goals, s, s, previous.revision, previous.metadata.blocked, []);
      forall i | 0 <= i < |goals| && Untouched(reg, steps, s, marks[i + 1], goals[i].0)
        ensures MetAt(SimAt(reg, steps, s, |steps|), goals[i])
      {
        assert Served(reg, steps, s, goals[i], marks[i], marks[i + 1]);
        UntouchedStays(reg, steps, s, marks[i + 1], |steps|, goals[i].0);
      }
    }
  }

  // ---- Calls ---------------------------------------------------------------------------------------------

  /** The same skills with equal arguments, one by one. */
  predicate SameCalls(a: seq<Step>, b: seq<Step>) {
    && |a| == |b|
    && forall i :: 0 <= i < |a| ==>
         && a[i].skill == b[i].skill
         && (forall n :: n in a[i].arguments ==>
               n in b[i].arguments && OptEq(Some(a[i].arguments[n]), Some(b[i].arguments[n])))
         && (forall n :: n in b[i].arguments ==> n in a[i].arguments)
  }

  lemma SignatureExact(a: seq<Step>, b: seq<Step>)
    ensures SameSignature(a, b) <==> SameCalls(a, b)
  {
    hide PyEq;
    forall x: Value, y: Value ensures OptEq(Some(x), Some(y)) <==> PyEq(x, y) { EqualityExact(x, y, y); }
    forall i | 0 <= i < |a| && |a| == |b|
      ensures SameArguments(a[i].arguments, b[i].arguments) <==>
              (forall n :: n in a[i].arguments ==>
                 n in b[i].arguments && OptEq(Some(a[i].arguments[n]), Some(b[i].arguments[n]))) &&
              (forall n :: n in b[i].arguments ==> n in a[i].arguments)
    {
    }
  }

  /** A replan is never the plan that failed, call by call. */
  lemma ReplanChangesCalls(reg: Skillset, previous: Plan, s: State)
    ensures var r := Replan(reg, previous, s); r.Some? ==> !SameCalls(r.value.steps, previous.steps)
  {
    hide GoalSteps, SameCalls, SameSignature;
    var r := Replan(reg, previous, s);
    if r.Some? { SignatureExact(r.value.steps, previous.steps); }
  }

  // ---- Names ---------------------------------------------------------------------------------------------

  lemma {:induction false} GoalStepsNamed(reg: Skillset, goals: Goals, s: State, revision: int, excluded: set<string>,
                                          done: seq<Step>)
    ensures var r := GoalSteps(reg, goals, s, revision, excluded, done);
            r.Some? ==> |done| <= |r.value| && forall k :: |done| <= k < |r.value| ==> Named(r.value[k], revision, k)
    decreases |goals|
  {
    hide Within, Project, Named, SynthesizeStep;
    if goals != [] {
      var (field, target) := goals[0];
      if Within(Raw(s, field), target, GOAL_TOLERANCE) {
        GoalStepsNamed(reg, goals[1..], s, revision, excluded, done);
      } else {
        var id := ReplanId(revision, |done| + 1);
        var step := SynthesizeStep(reg, field, target, s, id, REPLANNER, excluded);
        if step.Some? {
          StepIsNamed(reg, field, target, s, revision, excluded, |done|);
          var next, more := Project(reg, s, step.value), done + [step.value];
          GoalStepsNamed(reg, goals[1..], next, revision, excluded, more);
          GoalStepsExtend(reg, goals[1..], next, revision, excluded, more);
          var r := GoalSteps(reg, goals, s, revision, excluded, done);
          if r.Some? { assert r.value[|done|] == r.value[..|done| + 1][|done|] == step.value; }
        }
      }
    }
  }

  lemma StepIsNamed(reg: Skillset, field: string, target: Value, s: State, revision: int, excluded: set<string>, k: nat)
    requires SynthesizeStep(reg, field, target, s, ReplanId(revision, k + 1), REPLANNER, excluded).Some?
    ensures Named(SynthesizeStep(reg, field, target, s, ReplanId(revision, k + 1), REPLANNER, excluded).value,
                  revision, k)
  {
    var id := ReplanId(revision, k + 1);
    var step := SynthesizeStep(reg, field, target, s, id, REPLANNER, excluded).value;
    CandidateShape(reg, field, target, s, id, REPLANNER, excluded, step);
  }

  /** The step bears the revision of the new plan, its place in it and the name of its author. */
  predicate Named(step: Step, revision: int, k: nat) {
    && step.id == "replan_" + Decimal(revision + 1) + "_" + Digits(k + 1)
    && step.insertedBy == Some("GoalDirectedReplanner") && step.parallelGroup.None?
  }

  /** Steps of a replan are named by revision and place, so no two of them share an id. */
  lemma ReplanNamesSteps(reg: Skillset, previous: Plan, s: State)
    ensures var r := Replan(reg, previous, s);
            r.Some? ==>
              && (forall k :: 0 <= k < |r.value.steps| ==> Named(r.value.steps[k], previous.revision, k))
              && DistinctIds(r.value.steps)
  {
    hide GoalSteps;
    var r := Replan(reg, previous, s);
    if r.Some? {
      var steps := r.value.steps;
      GoalStepsNamed(reg, previous.metadata.goals.value, s, previous.revision, previous.metadata.blocked, []);
      forall i, j | 0 <= i < j < |steps| ensures steps[i].id != steps[j].id {
        assert Named(steps[i], previous.revision, i) && Named(steps[j], previous.revision, j);
        var head := "replan_" + Decimal(previous.revision + 1) + "_";
        if steps[i].id == steps[j].id {
          SameTail(head, Digits(i + 1), Digits(j + 1));
          DigitsDiffer(i + 1, j + 1);
        }
      }
    }
  }

  lemma SameTail(head: string, a: string, b: string)
    requires head + a == head + b
    ensures a == b
  {
    assert a == (head + a)[|head|..] && b == (head + b)[|head|..];
  }

  // ---- When there is none -------------------------------------------------------------------------------

  /** The goals before the last mark are served, and the next one is neither met where they end
      nor within the reach of any skill that is not excluded. */
  ghost predicate Stuck(reg: Skillset, goals: Goals, s: State, excluded: set<string>, steps: seq<Step>,
                        marks: seq<nat>, first: nat) {
    && 0 < |marks| <= |goals| && ServedInOrder(reg, goals[..|marks| - 1], steps, s, marks, first)
    && OutOfReach(reg, goals[|marks| - 1], SimAt(reg, steps, s, |steps|), excluded)
  }

  ghost predicate OutOfReach(reg: Skillset, goal: (string, Value), at: State, excluded: set<string>) {
    && !MetAt(at, goal)
    && forall sk :: sk in reg && sk.name !in excluded ==> SynthesizeCall(sk, sk.effects, goal.0, goal.1, at).None?
  }

  lemma StuckFirst(reg: Skillset, goals: Goals, s: State, excluded: set<string>, steps: seq<Step>, first: nat,
                   marks: seq<nat>)
    returns (all: seq<nat>)
    requires goals != [] && marks != [] && Stuck(reg, goals[1..], s, excluded, steps, marks, marks[0])
    requires first <= marks[0] <= |steps| && Served(reg, steps, s, goals[0], first, marks[0])
    ensures Stuck(reg, goals, s, excluded, steps, all, first)
  {
    hide Served, OutOfReach;
    var k := |marks| - 1;
    assert goals[..k + 1][1..] == goals[1..][..k] && goals[..k + 1][0] == goals[0];
    all := ServesFirst(reg, goals[..k + 1], steps, s, first, marks);
    assert goals[1..][k] == goals[k + 1];
  }

  lemma NothingReaches(reg: Skillset, goal: (string, Value), at: State, id: string, excluded: set<string>)
    requires !MetAt(at, goal) && SynthesizeStep(reg, goal.0, goal.1, at, id, REPLANNER, excluded).None?
    ensures OutOfReach(reg, goal, at, excluded)
  {
    hide SynthesizeStep, SynthesizeCall;
    SynthesisFindsAchievers(reg, goal.0, goal.1, at, id, REPLANNER, excluded);
  }

  lemma {:induction false} GoalStepsStuck(reg: Skillset, goals: Goals, s: State, at: State, revision: int,
                                          excluded: set<string>, done: seq<Step>)
    returns (steps: seq<Step>, marks: seq<nat>)
    requires Decisive(reg) && at == SimAt(reg, done, s, |done|)
    requires GoalSteps(reg, goals, at, revision, excluded, done).None?
    ensures |done| <= |steps| && steps[..|done|] == done
    ensures Stuck(reg, goals, s, excluded, steps, marks, |done|)
    decreases |goals|
  {
    hide Decisive, SimAt, Project, SynthesizeStep, Within, OutOfReach;
    var n := |done|;
    var (field, target) := goals[0];
    var id := ReplanId(revision, n + 1);
    if Within(Raw(at, field), target, GOAL_TOLERANCE) {
      steps, marks := GoalStepsStuck(reg, goals[1..], s, at, revision, excluded, done);
      SimAgrees(reg, steps, done, s, n) by { assert done[..n] == done; }
      marks := StuckFirst(reg, goals, s, excluded, steps, n, marks);
    } else {
      var step := SynthesizeStep(reg, field, target, at, id, REPLANNER, excluded);
      if step.None? {
        steps, marks := done, [n];
        NothingReaches(reg, goals[0], at, id, excluded);
      } else {
        var next, more := Project(reg, at, step.value), done + [step.value];
        SimNext(reg, done, step.value, s);
        steps, marks := GoalStepsStuck(reg, goals[1..], s, next, revision, excluded, more);
        assert steps[..n] == steps[..n + 1][..n] && steps[n] == steps[..n + 1][n];
        SimAgrees(reg, steps, more, s, n + 1) by { assert more[..n + 1] == more; }
        SimAgrees(reg, steps, done, s, n) by { assert done[..n] == done; }
        SynthesisedStepMeets(reg, field, target, at, id, REPLANNER, excluded, step.value);
        EqualIsWithin(Raw(next, field), target, GOAL_TOLERANCE);
        marks := StuckFirst(reg, goals, s, excluded, steps, n, marks);
      }
    }
  }

  /** When there is no replan: no goals are on record, or some goal is out of reach where the ones
      before it leave off, or serving them all comes to the very calls of the previous plan. */
  lemma NoReplanMeans(reg: Skillset, previous: Plan, s: State)
    returns (steps: seq<Step>, marks: seq<nat>)
    requires Decisive(reg)
    ensures Replan(reg, previous, s).None? && previous.metadata.goals.Some? && previous.metadata.goals.value != [] ==>
              var goals := previous.metadata.goals.value;
              || Stuck(reg, goals, s, previous.metadata.blocked, steps, marks, 0)
              || (ServedInOrder(reg, goals, steps, s, marks, 0) && SameCalls(steps, previous.steps))
  {
    hide Decisive, SimAt, GoalSteps, Within, Stuck, ServedInOrder, SameCalls, SameSignature;
    steps, marks := [], [];
    if Replan(reg, previous, s).None? && previous.metadata.goals.Some? && previous.metadata.goals.value != [] {
      var goals, blocked := previous.metadata.goals.value, previous.metadata.blocked;
      assert s == SimAt(reg, [], s, 0) by { SimStart(reg, [], s); }
      var r := GoalSteps(reg, goals, s, previous.revision, blocked, []);
      if r.None? {
        steps, marks := GoalStepsStuck(reg, goals, s, s, previous.revision, blocked, []);
      } else {
        steps := r.value;
        marks := GoalStepsServe(reg, goals, s, s, previous.revision, blocked, []);
        SignatureExact(steps, previous.steps);
      }
    }
  }

  // ---- The built-in registry is decisive ----------------------------------------------------------------

  lemma DefaultsAreDecisive()
    ensures Decisive(DEFAULTS)
  {
    hide WellFormedSkillset, SingleWriters, ValidArgs, Lookup;
    DefaultNames();
    forall step: Step | Callable(DEFAULTS, step)
      ensures SingleWriters(Lookup(DEFAULTS, step.skill).value, step.arguments)
    {
      DefaultsHaveSingleWriters(step);
    }
  }

  // ---- In any registry ------------------------------------------------------------------------------------

  /** Whatever the registry: the projection of a step meets a goal exactly when the last active
      effect that writes its field predicts a value within tolerance, or there is none and the
      goal was met before. */
  lemma StepMeetsExactly(reg: Skillset, step: Step, s: State, goal: (string, Value))
    requires Knows(reg, step.skill)
    ensures MetAt(Project(reg, s, step), goal) <==>
            match SpecFor(Lookup(reg, step.skill).value.effects, step.arguments, goal.0)
            case None => MetAt(s, goal)
            case Some(e) => Within(ExpectedValue(e, step.arguments, s), goal.1, 0.000001)
  {
    hide ExpectedValue, Within, SpecFor;
    EffectsDictionary(Lookup(reg, step.skill).value.effects, step.arguments, s);
  }

  // ---- Without that a replan may miss a goal ----------------------------------------------------------------

  /** Its first effect achieves the fact, its second one takes it back. */
  const UNDOING := Skill("toggle", [], {}, [],
                         [Effect([Lit("on")], Assign, Some(Bool(true)), None, None, 0.0),
                          Effect([Lit("on")], Assign, Some(Bool(false)), None, None, 0.0)],
                         1.0, [], {}, {}, false)

  const ON_GOAL: (string, Value) := ("on", Bool(true))

  lemma UndoingCall(s: State)
    ensures SynthesizeCall(UNDOING, UNDOING.effects, "on", Bool(true), s) == Some(map[])
    ensures ExpectedEffects(UNDOING, map[], s) == map["on" := Some(Bool(false))]
  {
    var t: Template := [Lit("on")];
    assert t[1..] == [] && "on"[|"on"|..] == "";
    var none: Bindings := map[];
    assert Match(t, "on") == Some(none) && AsArgs(none) == map[];
    LiteralFormat("on", map[]);
    OneEffect(UNDOING.effects[0], map[], s);
    TwoEffects(UNDOING.effects[0], UNDOING.effects[1], map[], s);
  }

  /** So the condition on the registry is needed: with a skill that takes back what it has
      achieved, the replan consists of that skill and its projection misses the goal. */
  lemma UndoingReplanMisses(plan: Plan, s: State)
    requires plan.steps == [] && plan.metadata.goals == Some([ON_GOAL]) && plan.metadata.blocked == {}
    requires !MetAt(s, ON_GOAL)
    ensures var r := Replan([UNDOING], plan, s);
            && r.Some? && |r.value.steps| == 1 && r.value.steps[0].skill == "toggle"
            && !MetAt(SimAt([UNDOING], r.value.steps, s, 1), ON_GOAL)
  {
    hide SynthesizeCall, ExpectedEffects;
    UndoingCall(s);
    var reg, goals: Goals := [UNDOING], [ON_GOAL];
    assert reg[1..] == [] && goals[1..] == [];
    var step := Step(ReplanId(plan.revision, 1), "toggle", map[], [ON_GOAL], None, Some(REPLANNER));
    assert SynthesizeCandidates(reg, "on", Bool(true), s, step.id, REPLANNER, {}) == [step];
    var none: seq<Step> := [];
    assert none + [step] == [step];
    assert SynthesizeStep(reg, "on", Bool(true), s, step.id, REPLANNER, {}) == Some(step);
    assert GoalSteps(reg, goals, s, plan.revision, {}, none) ==
           GoalSteps(reg, goals[1..], Project(reg, s, step), plan.revision, {}, [step]);
    assert SimAt(reg, [step], s, 0) == s;
  }
}
