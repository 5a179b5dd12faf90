/** Whatever preflight launches - a plan as given, one cleared by fresh evidence, or a repaired
    one - a faithful backend executes to its end. */
module RunLaunch {
  import opened Values
  import opened RobotState
  import opened Templates
  import opened Skills
  import opened Registry
  import opened Capability
  import opened Grounder
  import opened GrounderSpec
  import opened Repairer
  import opened RepairGoals
  import opened Executor
  import opened RunSafety
  import opened RunAdequacy

  // ---- Simulation depends on values only -----------------------------------------------------------

  lemma {:induction false} EffectsReadValues(effects: seq<Effect>, args: Args, a: State, b: State)
    requires a.vals == b.vals
    ensures EffectsOf(effects, args, a) == EffectsOf(effects, args, b)
  {
    if effects != [] { EffectsReadValues(effects[..|effects| - 1], args, a, b); }
  }

  lemma {:induction false} SimReadsValues(reg: Skillset, steps: seq<Step>, a: State, b: State, i: nat)
    requires i <= |steps| && a.vals == b.vals
    ensures SimAt(reg, steps, a, i).vals == SimAt(reg, steps, b, i).vals
  {
    if i > 0 {
      SimReadsValues(reg, steps, a, b, i - 1);
      ProjectReadsValues(reg, SimAt(reg, steps, a, i - 1), SimAt(reg, steps, b, i - 1), steps[i - 1]);
    }
  }

  lemma ProjectReadsValues(reg: Skillset, a: State, b: State, step: Step)
    requires a.vals == b.vals
    ensures Project(reg, a, step).vals == Project(reg, b, step).vals
  {
    match Lookup(reg, step.skill)
    case Some(sk) => EffectsReadValues(sk.effects, step.arguments, a, b);
    case None =>
  }

  // ---- Preflight ---------------------------------------------------------------------------------------

  /** Nothing has been sent and the evidence shows the world. */
  predicate Poised(x: Setup, w: State, log: Log, last: Option<string>, c: Control, s: State) {
    && |log| <= |c.log| && Proper(x.Reg(), w, c.log)
    && World(x.Reg(), w, c.log) == World(x.Reg(), w, log) && Sent(|log|, c.log) == []
    && s.vals == World(x.Reg(), w, log).vals && s.active == w.active
    && c.last == last && c.results == [] && c.index == 0 && c.replans == 0 && c.runtimeRepairs == 0
  }

  /** The grounder accepted the launched plan on evidence `s`. */
  predicate Cleared(x: Setup, w: State, log: Log, c: Control, s: State, now: real) {
    && OnTrack(x, w, |log|, c.plan, s, 0, c)
    && EachStepGrounded(x.Reg(), x.Caps(), now, c.plan.steps, s)
    && s.vals == World(x.Reg(), w, log).vals && s.active == w.active
  }

  /** The goals are the projection of the plan itself on evidence `s`. */
  predicate OwnProjection(x: Setup, plan: Plan, s: State) {
    plan.metadata.projected && plan.metadata.goals == Some(GoalFold(x.Reg(), plan.steps, s, []))
  }

  /** ... as the executor computed it, or as the repairer did. */
  predicate ProjectedGoals(x: Setup, plan: Plan, s: State) {
    || plan.metadata.goals == Some(GoalFold(x.Reg(), plan.steps, s, []))
    || plan.metadata.goals == Some(GoalsAlong(x.Reg(), plan.steps, s))
  }

  lemma StepGoalsReadValues(reg: Skillset, goals: Goals, step: Step, a: State, b: State)
    requires a.vals == b.vals
    ensures StepGoals(reg, goals, step, a) == StepGoals(reg, goals, step, b)
    ensures Predictable(reg, step, a) == Predictable(reg, step, b)
  {
    assert forall k :: Raw(a, k) == Raw(b, k);
    match Lookup(reg, step.skill)
    case Some(sk) => EffectsReadValues(sk.effects, step.arguments, a, b);
    case None =>
  }

  lemma {:induction false} GoalFoldReadsValues(reg: Skillset, steps: seq<Step>, a: State, b: State, goals: Goals)
    requires a.vals == b.vals
    ensures GoalFold(reg, steps, a, goals) == GoalFold(reg, steps, b, goals)
    decreases |steps|
  {
    hide Predictable, StepGoals, Project;
    if steps != [] {
      StepGoalsReadValues(reg, goals, steps[0], a, b);
      ProjectReadsValues(reg, a, b, steps[0]);
      GoalFoldReadsValues(reg, steps[1..], a, b, goals);
      GoalFoldReadsValues(reg, steps[1..], Project(reg, a, steps[0]), Project(reg, b, steps[0]),
                          StepGoals(reg, goals, steps[0], a));
    }
  }

  lemma AcquiredIsPoised(x: Setup, w: State, log: Log, last: Option<string>, c: Control, s: State, fields: set<string>)
    requires Faithful(x, w) && Poised(x, w, log, last, c, s)
    requires Raw(World(x.Reg(), w, log), LAST_RESULT).None? ==> last.None?
    ensures var t := Overlay(x.backend.acquire(c.log, fields), c.last);
            Poised(x, w, log, last, Decided(c.(log := c.log + [Acquired(fields, t)]), OBSERVE), t)
  {
    hide Timely, ContractMet;
    var o := x.backend.acquire(c.log, fields);
    var t := Overlay(o, c.last);
    assert Truthful(o, World(x.Reg(), w, c.log), w.active);
    WorldOne(x.Reg(), w, c.log, Acquired(fields, t));
    ProperOne(x.Reg(), w, c.log, Acquired(fields, t));
    SentOne(|log|, c.log, Acquired(fields, t));
    assert t == o by { assert Raw(o, LAST_RESULT) == Raw(World(x.Reg(), w, log), LAST_RESULT); }
  }

  lemma EndClears(x: Setup, w: State, log: Log, last: Option<string>, c: Control, s: State, now: real)
    returns (at: real)
    requires WellFormedSkillset(x.Reg()) && Poised(x, w, log, last, c, s)
    requires now == x.backend.clock(c.log, ForGround)
    requires PreflightEnd(x, c, s, Ground(x.Reg(), x.Caps(), now, c.plan, s)).mode.Outer?
    ensures var d := PreflightEnd(x, c, s, Ground(x.Reg(), x.Caps(), now, c.plan, s));
            Cleared(x, w, log, d, s, at) && (OwnProjection(x, c.plan, s) ==> ProjectedGoals(x, d.plan, s))
  {
    hide Ground, Repair, Proper, World, Sent, RepairPermitted, GoalFold, GoalsAlong, WellFormedSkillset;
    var report := Ground(x.Reg(), x.Caps(), now, c.plan, s);
    SimStart(x.Reg(), c.plan.steps, s);
    if report.valid {
      at := now;
      GroundedSteps(x.Reg(), x.Caps(), now, c.plan, s);
    } else {
      at := x.backend.clock(c.log, ForReground);
      var r := Repair(x.Reg(), x.config.limits, x.backend.clock(c.log, ForRepair), c.plan, s, false);
      GroundedSteps(x.Reg(), x.Caps(), at, r.value, s);
      SimStart(x.Reg(), r.value.steps, s);
      RepairedGoals(x.Reg(), x.config.limits, x.Caps(), now, x.backend.clock(c.log, ForRepair), c.plan, s);
    }
  }

  lemma {:induction false} LoopClears(x: Setup, w: State, log: Log, last: Option<string>, c: Control, s: State,
                                      attempts: nat)
    returns (t: State, at: real)
    requires WellFormedSkillset(x.Reg()) && Faithful(x, w) && Poised(x, w, log, last, c, s)
    requires Raw(World(x.Reg(), w, log), LAST_RESULT).None? ==> last.None?
    requires PreflightLoop(x, c, s, attempts).mode.Outer?
    ensures var d := PreflightLoop(x, c, s, attempts);
            Cleared(x, w, log, d, t, at) && (OwnProjection(x, c.plan, s) ==> ProjectedGoals(x, d.plan, t))
    decreases x.config.maxObservations - attempts
  {
    hide Ground, Faithful, Cleared, PreflightEnd, ObservableFields, World, Proper, Sent, GoalFold, ProjectedGoals,
         WellFormedSkillset;
    var now := x.backend.clock(c.log, ForGround);
    var report := Ground(x.Reg(), x.Caps(), now, c.plan, s);
    var fields := ObservableFields(x.Reg(), c.plan, report, x.backend.capabilities);
    if !report.valid && !report.RequiresStop() && x.flags.activeObservation &&
       attempts < x.config.maxObservations && fields != {}
    {
      AcquiredIsPoised(x, w, log, last, c, s, fields);
      var t1 := Overlay(x.backend.acquire(c.log, fields), c.last);
      GoalFoldReadsValues(x.Reg(), c.plan.steps, s, t1, []);
      t, at := LoopClears(x, w, log, last, Decided(c.(log := c.log + [Acquired(fields, t1)]), OBSERVE), t1,
                          attempts + 1);
    } else {
      t := s;
      at := EndClears(x, w, log, last, c, s, now);
    }
  }

  lemma LaunchClears(x: Setup, w: State, plan: Plan, log: Log, last: Option<string>)
    returns (t: State, at: real)
    requires WellFormedSkillset(x.Reg()) && Faithful(x, w)
    requires Proper(x.Reg(), w, log) && NoEarlierResult(x, log, last)
    requires x.flags.groundPlan && Start(x, plan, log, last).mode.Outer?
    ensures var c := Start(x, plan, log, last);
            Cleared(x, w, log, c, t, at) && (plan.metadata.goals.None? ==> ProjectedGoals(x, c.plan, t))
  {
    hide Timely, ContractMet, PreflightLoop, Cleared, GoalFold, ProjectedGoals, WellFormedSkillset;
    var s := FirstLook(x, log);
    assert Look(x, Begin(plan, log, last)) == s;
    assert Truthful(s, World(x.Reg(), w, log), w.active);
    assert Raw(s, LAST_RESULT) == Raw(World(x.Reg(), w, log), LAST_RESULT);
    WorldOne(x.Reg(), w, log, Observed(s));
    ProperOne(x.Reg(), w, log, Observed(s));
    SentOne(|log|, log, Observed(s));
    var c := Saw(Begin(plan, log, last), s).(plan := WithGoalState(x.Reg(), plan, s));
    t, at := LoopClears(x, w, log, last, c, s, 0);
  }

  // ---- The end of the run -----------------------------------------------------------------------------------

  lemma SeenGoalsAreReached(x: Setup, w: State, c: Control, sim: State)
    requires Faithful(x, w) && Proper(x.Reg(), w, c.log)
    requires World(x.Reg(), w, c.log).vals == sim.vals && sim.active == w.active
    requires OwnGoals(c.plan) && GoalsMet(c.plan, Look(x, c))
    ensures GoalsReached(c.plan, sim)
  {
    hide Timely, World, ContractMet;
    assert Truthful(x.backend.observe(c.log), World(x.Reg(), w, c.log), w.active);
    var s := Look(x, c);
    if c.plan.metadata.goals.Some? {
      forall g | g in c.plan.metadata.goals.value ensures Within(Raw(sim, g.0), g.1, REPORT_TOLERANCE) {
        assert GoalMet(s, g) && Raw(s, g.0) == Raw(x.backend.observe(c.log), g.0);
        assert Raw(sim, g.0) == Raw(World(x.Reg(), w, c.log), g.0);
      }
    }
  }

  /** The last loop head: a final look if outcomes are verified, and the report. */
  lemma FinishSends(x: Setup, base: nat, c: Control)
    requires c.mode.Outer? && c.index == |c.plan.steps| && base <= |c.log|
    ensures var d := Advance(x, c);
            && d.mode == Final(!x.flags.verifyOutcomes || GoalsMet(c.plan, Look(x, c)))
            && d.plan == c.plan && d.results == c.results && Sent(base, d.log) == Sent(base, c.log)
  {
    hide GoalsMet, Look, Sent;
    var seen := Observed(Look(x, c));
    SentOne(base, c.log, seen);
    SentOne(base, c.log + [seen], Stopped);
  }

  lemma FinishReports(x: Setup, w: State, base: nat, plan: Plan, s: State, c: Control)
    requires Faithful(x, w) && s.active == w.active && OnTrack(x, w, base, plan, s, |plan.steps|, c)
    ensures var d := Advance(x, c);
            var reached := GoalsReached(plan, SimAt(x.Reg(), plan.steps, s, |plan.steps|));
            && d.mode.Final? && d.plan == plan && |d.results| == |plan.steps|
            && Sent(base, d.log) == Calls(plan.steps)
            && (reached || !x.flags.verifyOutcomes ==> d.mode == Final(true))
            && (d.mode == Final(true) && x.flags.verifyOutcomes && OwnGoals(plan) ==> reached)
  {
    hide Faithful, Advance, World, Proper, GoalsMet, GoalsReached, Look, OwnGoals, Sent, Calls;
    var sim := SimAt(x.Reg(), plan.steps, s, |plan.steps|);
    SimKeepsActive(x.Reg(), plan.steps, s, |plan.steps|);
    if GoalsReached(plan, sim) { GoalsSeen(x, w, c, sim); }
    if OwnGoals(plan) && GoalsMet(plan, Look(x, c)) { SeenGoalsAreReached(x, w, c, sim); }
    FinishSends(x, base, c);
    assert plan.steps[..|plan.steps|] == plan.steps;
  }

  /** Whatever preflight launches is carried out: with a faithful backend every step is sent
      once, in order, and achieved at the first attempt; the world passes through the
      simulated states of the launched plan; and with outcome verification the report is a
      success exactly when the goals hold where the simulation ends. */
  lemma LaunchedPlanExecutes(x: Setup, w: State, plan: Plan, log: Log, last: Option<string>)
    requires Faithful(x, w) && WellFormedSkillset(x.Reg())
    requires Proper(x.Reg(), w, log) && NoEarlierResult(x, log, last)
    requires x.flags.groundPlan && Start(x, plan, log, last).mode.Outer?
    ensures var launched := Start(x, plan, log, last).plan;
            var n := |launched.steps|;
            var world := World(x.Reg(), w, log);
            var c := After(x, plan, log, last, 2 * n + 1);
            var reached := GoalsReached(launched, SimAt(x.Reg(), launched.steps, world, n));
            && c.mode.Final? && c.plan == launched && |c.results| == n
            && Sent(|log|, c.log) == Calls(launched.steps)
            && (forall i :: 0 <= i <= n ==>
                  var at := After(x, plan, log, last, 2 * i).log;
                  && Proper(x.Reg(), w, at)
                  && World(x.Reg(), w, at).vals == SimAt(x.Reg(), launched.steps, world, i).vals)
            && (reached ==> c.mode == Final(true))
            && (x.flags.verifyOutcomes && OwnGoals(launched) ==> (c.mode == Final(true) <==> reached))
  {
    hide Faithful, Proper, Advance, OnTrack, Start, SimAt, World, Sent, OwnGoals, EachStepGrounded;
    var c := Start(x, plan, log, last);
    var t, at := LaunchClears(x, w, plan, log, last);
    var steps, world := c.plan.steps, World(x.Reg(), w, log);
    var n := |steps|;
    forall i | 0 <= i <= n
      ensures var at := After(x, plan, log, last, 2 * i).log;
              Proper(x.Reg(), w, at) && World(x.Reg(), w, at).vals == SimAt(x.Reg(), steps, world, i).vals
    {
      StaysOnTrack(x, w, |log|, x.Caps(), at, c.plan, t, c, i);
      OnTrackWorld(x, w, |log|, c.plan, t, i, Iterate(x, c, 2 * i));
      SimReadsValues(x.Reg(), steps, t, world, i);
    }
    StaysOnTrack(x, w, |log|, x.Caps(), at, c.plan, t, c, n);
    SimReadsValues(x.Reg(), steps, t, world, n);
    SameReach(c.plan, SimAt(x.Reg(), steps, t, n), SimAt(x.Reg(), steps, world, n));
    FinishReports(x, w, |log|, c.plan, t, Iterate(x, c, 2 * n));
    assert Iterate(x, c, 2 * n + 1) == Advance(x, Iterate(x, c, 2 * n));
  }

  lemma SameReach(plan: Plan, a: State, b: State)
    requires a.vals == b.vals
    ensures GoalsReached(plan, a) <==> GoalsReached(plan, b)
  {
    assert forall k :: Raw(a, k) == Raw(b, k);
  }

  // ---- Projected goals ----------------------------------------------------------------------------------------

  lemma {:induction false} SimOfTake(reg: Skillset, steps: seq<Step>, s: State, k: nat, i: nat)
    requires i <= k <= |steps|
    ensures SimAt(reg, steps[..k], s, i) == SimAt(reg, steps, s, i)
  {
    if i > 0 { SimOfTake(reg, steps, s, k, i - 1); }
  }

  lemma {:induction false} AlongHolds(reg: Skillset, caps: Option<Capabilities>, now: real, steps: seq<Step>,
                                      s: State, i: nat)
    requires i <= |steps| && EachStepGrounded(reg, caps, now, steps, s)
    ensures GoalsHold(GoalsAlong(reg, steps[..i], s), SimAt(reg, steps, s, i))
  {
    hide StepGrounded, StepGoals, GoalsHold, StepEffects, Project;
    if i == 0 {
      assert GoalsHold([], SimAt(reg, steps, s, 0)) by { NoGoalHolds(s); }
    } else {
      var n := i - 1;
      AlongHolds(reg, caps, now, steps, s, n);
      SimOfTake(reg, steps, s, i, n);
      assert steps[..i][..n] == steps[..n];
      assert StepGrounded(reg, caps, now, steps[n], SimAt(reg, steps, s, n));
      GroundedStepPredicts(reg, caps, now, steps[n], SimAt(reg, steps, s, n));
      StepGoalsHold(reg, GoalsAlong(reg, steps[..n], s), steps[n], SimAt(reg, steps, s, n));
    }
  }

  lemma NoGoalHolds(s: State)
    ensures GoalsHold([], s)
  {
  }

  lemma HeldGoalsAreReached(plan: Plan, s: State)
    requires plan.metadata.goals.Some? && GoalsHold(plan.metadata.goals.value, s)
    ensures GoalsReached(plan, s)
  {
    forall g | g in plan.metadata.goals.value ensures Within(Raw(s, g.0), g.1, REPORT_TOLERANCE) {
      assert Raw(s, g.0) == Some(g.1);
    }
  }

  lemma PredictableReadsValues(reg: Skillset, steps: seq<Step>, a: State, b: State)
    requires a.vals == b.vals && EachPredictable(reg, steps, a)
    ensures EachPredictable(reg, steps, b)
  {
    hide Predictable, SimAt;
    forall i | 0 <= i < |steps| ensures Predictable(reg, steps[i], SimAt(reg, steps, b, i)) {
      SimReadsValues(reg, steps, a, b, i);
      StepGoalsReadValues(reg, [], steps[i], SimAt(reg, steps, a, i), SimAt(reg, steps, b, i));
    }
  }

  /** Goals projected from a plan, by the executor or by the repairer, are reached where its
      simulation ends. */
  lemma ProjectionReachesGoals(x: Setup, caps: Option<Capabilities>, now: real, plan: Plan, s: State)
    requires EachStepGrounded(x.Reg(), caps, now, plan.steps, s) && EachPredictable(x.Reg(), plan.steps, s)
    requires ProjectedGoals(x, plan, s)
    ensures GoalsReached(plan, SimAt(x.Reg(), plan.steps, s, |plan.steps|))
  {
    hide EachStepGrounded, EachPredictable, SimAt, GoalsReached, GoalsHold, GoalFold, GoalsAlong;
    var steps := plan.steps;
    assert steps[0..] == steps && steps[..|steps|] == steps;
    NoGoalHolds(s);
    SimStart(x.Reg(), steps, s);
    GoalFoldHolds(x.Reg(), caps, now, steps, s, 0, []);
    AlongHolds(x.Reg(), caps, now, steps, s, |steps|);
    HeldGoalsAreReached(plan, SimAt(x.Reg(), steps, s, |steps|));
  }

  /** The closed loop. A plan without stated goals that preflight launches - accepted as it
      is, after fresh evidence, or repaired - is carried out by a faithful backend with
      success: one command per step of the launched plan, and every projected goal met. */
  lemma LaunchMeansSuccess(x: Setup, w: State, plan: Plan, log: Log, last: Option<string>)
    requires Faithful(x, w) && WellFormedSkillset(x.Reg())
    requires Proper(x.Reg(), w, log) && NoEarlierResult(x, log, last)
    requires x.flags.groundPlan && Start(x, plan, log, last).mode.Outer?
    requires plan.metadata.goals.None?
    requires EachPredictable(x.Reg(), Start(x, plan, log, last).plan.steps, World(x.Reg(), w, log))
    ensures var launched := Start(x, plan, log, last).plan;
            var c := After(x, plan, log, last, 2 * |launched.steps| + 1);
            c.mode == Final(true) && c.plan == launched && Sent(|log|, c.log) == Calls(launched.steps)
  {
    hide Faithful, Proper, OnTrack, Start, SimAt, World, Sent, EachStepGrounded, EachPredictable, GoalsReached,
         ProjectedGoals, After;
    var c := Start(x, plan, log, last);
    var t, at := LaunchClears(x, w, plan, log, last);
    var steps, world := c.plan.steps, World(x.Reg(), w, log);
    LaunchedPlanExecutes(x, w, plan, log, last);
    PredictableReadsValues(x.Reg(), steps, world, t);
    ProjectionReachesGoals(x, x.Caps(), at, c.plan, t);
    SimReadsValues(x.Reg(), steps, t, world, |steps|);
    SameReach(c.plan, SimAt(x.Reg(), steps, t, |steps|), SimAt(x.Reg(), steps, world, |steps|));
  }
}
