/** The kinds of transition a run is made of. Each loop iteration is one of them; the
    whole-run theorems argue about kinds and never look into grounding or repair. */
module Transitions {
  import opened Values
  import opened RobotState
  import opened Skills
  import opened Registry
  import opened Grounder
  import opened Repairer
  import opened Executor

  /** `b` is `a` followed by observations only. */
  predicate Watched(a: Log, b: Log) {
    && |a| <= |b| && b[..|a|] == a
    && forall k :: |a| <= k < |b| ==> b[k].Observed? || b[k].Acquired?
  }

  /** Everything but mode, log and decisions is the same. */
  predicate SameWork(c: Control, d: Control) {
    && d.plan == c.plan && d.index == c.index && d.replans == c.replans
    && d.runtimeRepairs == c.runtimeRepairs && d.results == c.results && d.last == c.last
    && d.adopted == c.adopted && d.epoch == c.epoch
  }

  predicate Guarded(x: Setup, sk: Skill, step: Step, s: State, log: Log) {
    x.flags.runtimeGuard ==> GuardAllows(sk, step, s, x.backend.clock(log, ForGuard))
  }

  predicate Denied(x: Setup, sk: Skill, step: Step, s: State, log: Log) {
    x.flags.runtimeGuard && !GuardAllows(sk, step, s, x.backend.clock(log, ForGuard))
  }

  // ---- From the head of the step loop ------------------------------------------------------

  predicate Entered(x: Setup, c: Control, d: Control) {
    && c.index < |c.plan.steps|
    && d.mode.Inner? && d == c.(log := c.log + [Observed(d.mode.before)], mode := d.mode)
    && d.mode.step == c.plan.steps[c.index] && d.mode.attempt == 1
    && Callable(x.Reg(), d.mode.step) && Lookup(x.Reg(), d.mode.step.skill) == Some(d.mode.skill)
    && d.mode.before == Look(x, c)
    && Guarded(x, d.mode.skill, d.mode.step, d.mode.before, d.log)
  }

  /** The guard of the current step is denied on a fresh look. */
  predicate DeniedNow(x: Setup, c: Control) {
    && c.index < |c.plan.steps| && Knows(x.Reg(), c.plan.steps[c.index].skill)
    && Denied(x, Lookup(x.Reg(), c.plan.steps[c.index].skill).value, c.plan.steps[c.index],
              Look(x, c), Saw(c, Look(x, c)).log)
  }

  predicate Reobserved(x: Setup, c: Control, d: Control) {
    && DeniedNow(x, c) && d.mode.Outer?
    && c.runtimeRepairs < x.config.maxObservations
    && SameWork(c.(runtimeRepairs := c.runtimeRepairs + 1), d)
    && Watched(c.log, d.log) && d.decisions == c.decisions + [OBSERVE]
  }

  function Remaining(c: Control): Plan
    requires c.index <= |c.plan.steps|
  {
    c.plan.(steps := c.plan.steps[c.index..])
  }

  predicate Resuffixed(x: Setup, c: Control, d: Control) {
    && DeniedNow(x, c) && d.mode.Outer? && c.runtimeRepairs < 2
    && d.plan.metadata == c.plan.metadata
    && c.index <= |d.plan.steps| && d.plan.steps[..c.index] == c.plan.steps[..c.index]
    && SameWork(c.(runtimeRepairs := c.runtimeRepairs + 1, plan := d.plan), d)
    && Watched(c.log, d.log) && d.decisions == c.decisions + [REPAIR]
    && SuffixFromRepair(x, c, d.plan.steps[c.index..])
  }

  /** The new suffix is a repair of the unexecuted one that its report allowed. */
  predicate SuffixFromRepair(x: Setup, c: Control, suffix: seq<Step>)
    requires c.index <= |c.plan.steps|
  {
    var before := Look(x, c);
    var log := Saw(c, before).log;
    var report := Ground(x.Reg(), x.Caps(), x.backend.clock(log, ForSuffix), Remaining(c), before);
    var r := Repair(x.Reg(), x.config.limits, x.backend.clock(log, ForRepair), Remaining(c), before, false);
    !report.RequiresStop() && r.Some? && r.value.steps == suffix
  }

  /** A safe stop ends the run. */
  predicate StoppedAfter(c: Control, d: Control) {
    && d.mode == Final(false) && SameWork(c, d)
    && |d.log| > 0 && d.log[|d.log| - 1] == Stopped && Watched(c.log, d.log[..|d.log| - 1])
    && |d.decisions| > 0 && d.decisions[|d.decisions| - 1] == STOP
    && CountReground(d.decisions) == CountReground(c.decisions)
  }

  function CountReground(ds: seq<Decision>): nat {
    if ds == [] then 0
    else CountReground(ds[..|ds| - 1]) + if ds[|ds| - 1] == REGROUND then 1 else 0
  }

  lemma CountOne(ds: seq<Decision>, d: Decision)
    ensures CountReground(ds + [d]) == CountReground(ds) + if d == REGROUND then 1 else 0
  {
    assert (ds + [d])[..|ds|] == ds;
  }

  predicate Completed(x: Setup, c: Control, d: Control) {
    && c.index >= |c.plan.steps| && d.mode == Final(true)
    && SameWork(c, d) && d.decisions == c.decisions
    && (x.flags.verifyOutcomes ==>
          d.log == c.log + [Observed(Look(x, c))] && GoalsMet(c.plan, Look(x, c)))
    && (!x.flags.verifyOutcomes ==> d.log == c.log)
  }

  predicate FromOuter(x: Setup, c: Control, d: Control) {
    Entered(x, c, d) || Reobserved(x, c, d) || Resuffixed(x, c, d) || StoppedAfter(c, d) ||
    Completed(x, c, d)
  }

  lemma HaltIs(c: Control, e: Control)
    requires SameWork(c, e) && Watched(c.log, e.log)
    requires CountReground(e.decisions) == CountReground(c.decisions)
    ensures StoppedAfter(c, Halt(e))
  {
    assert Halt(e).log[..|e.log|] == e.log;
    CountOne(e.decisions, STOP);
  }

  lemma WatchedOne(a: Log, e: Event)
    requires e.Observed? || e.Acquired?
    ensures Watched(a, a + [e])
  {
  }

  lemma WatchedMore(a: Log, b: Log, e: Event)
    requires Watched(a, b) && (e.Observed? || e.Acquired?)
    ensures Watched(a, b + [e])
  {
  }

  lemma FinishKinds(x: Setup, c: Control)
    requires c.mode.Outer? && c.index >= |c.plan.steps|
    ensures FromOuter(x, c, Advance(x, c))
  {
    var d := Advance(x, c);
    if x.flags.verifyOutcomes {
      var c1 := Saw(c, Look(x, c));
      WatchedOne(c.log, Observed(Look(x, c)));
      if !GoalsMet(c.plan, Look(x, c)) { HaltIs(c, c1); }
    }
  }

  lemma GuardFailedKinds(x: Setup, c: Control)
    requires c.mode.Outer? && DeniedNow(x, c) && Callable(x.Reg(), c.plan.steps[c.index])
    ensures var sk := Lookup(x.Reg(), c.plan.steps[c.index].skill).value;
            FromOuter(x, c, GuardFailed(x, Saw(c, Look(x, c)), sk, Look(x, c)))
  {
    var sk := Lookup(x.Reg(), c.plan.steps[c.index].skill).value;
    var before := Look(x, c);
    var c1 := Saw(c, before);
    var d := GuardFailed(x, c1, sk, before);
    WatchedOne(c.log, Observed(before));
    var remaining := Remaining(c);
    var report := Ground(x.Reg(), x.Caps(), x.backend.clock(c1.log, ForSuffix), remaining, before);
    var fields := ObservableFields(x.Reg(), remaining, report, x.backend.capabilities);
    if x.flags.activeObservation && "observe" in sk.policy &&
       c.runtimeRepairs < x.config.maxObservations && fields != {} {
      var t := Overlay(x.backend.acquire(c1.log, fields), c.last);
      WatchedMore(c.log, c1.log, Acquired(fields, t));
      assert Reobserved(x, c, d);
    } else if x.flags.allowRepair && "repair" in sk.policy && !report.RequiresStop() && c.runtimeRepairs < 2 {
      var r := Repair(x.Reg(), x.config.limits, x.backend.clock(c1.log, ForRepair), remaining, before, false);
      if r.Some? && r.value.steps != remaining.steps {
        assert d.plan.steps[c.index..] == r.value.steps;
        assert d.plan.steps[..c.index] == c.plan.steps[..c.index];
        assert Resuffixed(x, c, d);
      } else {
        HaltIs(c, c1);
      }
    } else {
      HaltIs(c, c1);
    }
  }

  lemma OuterKinds(x: Setup, c: Control)
    requires c.mode.Outer?
    ensures FromOuter(x, c, Advance(x, c))
  {
    if c.index >= |c.plan.steps| {
      FinishKinds(x, c);
    } else if !Callable(x.Reg(), c.plan.steps[c.index]) {
      HaltIs(c, c);
    } else {
      var step := c.plan.steps[c.index];
      var sk := Lookup(x.Reg(), step.skill).value;
      var before := Look(x, c);
      if Denied(x, sk, step, before, Saw(c, before).log) {
        GuardFailedKinds(x, c);
      } else {
        assert Entered(x, c, Advance(x, c));
      }
    }
  }

  // ---- From the head of the attempt loop -------------------------------------------------------

  predicate Achieved(x: Setup, c: Control) requires c.mode.Inner? {
    var r := Attempted(x, c).results;
    r[|r| - 1].achieved
  }

  predicate Progressed(x: Setup, c: Control, d: Control) {
    && c.mode.Inner? && Achieved(x, c)
    && d == Attempted(x, c).(mode := Outer, index := c.index + 1)
  }

  /** Recovery decided to retry. */
  predicate Retrying(x: Setup, c: Control) {
    c.mode.Inner? && x.flags.allowRecovery && MayRetry(c.mode.skill.policy) && c.mode.attempt <= x.config.maxRetries
  }

  predicate Retried(x: Setup, c: Control, d: Control) {
    && Retrying(x, c) && !Achieved(x, c)
    && var e := Attempted(x, c);
       && d.mode.Inner?
       && d.mode == c.mode.(before := d.mode.before, attempt := c.mode.attempt + 1)
       && d.mode.before == Look(x, e)
       && d == e.(log := e.log + [Observed(d.mode.before)], mode := d.mode,
                  decisions := e.decisions + [LOCAL_RETRY])
       && Guarded(x, d.mode.skill, d.mode.step, d.mode.before, d.log)
  }

  predicate Regrounded(x: Setup, c: Control, d: Control) {
    && Retrying(x, c) && !Achieved(x, c)
    && var e := Attempted(x, c);
       && d == e.(log := e.log + [Observed(Look(x, e))], mode := Outer,
                  decisions := e.decisions + [LOCAL_RETRY] + [REGROUND])
       && Denied(x, c.mode.skill, c.mode.step, Look(x, e), d.log)
  }

  /** The plan a proposal `p` turns into: itself with goals, or a repair of that. */
  predicate Vetted(x: Setup, e: Control, p: Plan, adopted: Plan) {
    var s1 := Look(x, e);
    var e1 := Saw(e, s1);
    var plan := WithGoalState(x.Reg(), p, s1);
    var s2 := Look(x, e1);
    var e2 := Saw(e1, s2);
    var report := Ground(x.Reg(), x.Caps(), x.backend.clock(e2.log, ForGround), plan, s2);
    adopted == plan || RepairedFrom(x, e2, plan, report.RequiresStop(), adopted)
  }

  predicate RepairedFrom(x: Setup, e: Control, plan: Plan, requiresStop: bool, adopted: Plan) {
    var s := Look(x, e);
    Repair(x.Reg(), x.config.limits, x.backend.clock(Saw(e, s).log, ForRepair), plan, s, requiresStop) ==
    Some(adopted)
  }

  /** The adopted plan comes from the replanner, asked about the failed plan. */
  predicate FromReplanner(x: Setup, c: Control, p: Plan) {
    c.mode.Inner? && x.config.replanner.Some? &&
    var e := Decided(Attempted(x, c), REPLAN);
    var q := x.config.replanner.value(FailedPlan(e, c.mode), Look(x, e));
    q.Some? && Vetted(x, Saw(e, Look(x, e)), q.value, p)
  }

  predicate Installed(a: Control, m: Mode, d: Control) {
    && m.Inner? && d.mode.Outer? && d.index == 0
    && d.replans == a.replans + 1 && d.runtimeRepairs == a.runtimeRepairs
    && d.results == a.results && d.last == a.last && d.epoch == |d.results|
    && Watched(a.log, d.log)
    && d.adopted == a.adopted + [Adoption(m.skill.name, |d.log|)]
    && d.decisions == a.decisions + [REPLAN]
  }

  predicate Replanned(x: Setup, c: Control, d: Control) {
    && c.mode.Inner? && !Achieved(x, c) && c.replans < x.config.maxReplans
    && Installed(Attempted(x, c), c.mode, d)
    && FromReplanner(x, c, d.plan)
  }

  predicate FromInner(x: Setup, c: Control, d: Control) {
    c.mode.Inner? &&
    (Progressed(x, c, d) || Retried(x, c, d) || Regrounded(x, c, d) || Replanned(x, c, d) ||
     (!Achieved(x, c) && StoppedAfter(Attempted(x, c), d)))
  }

  /** `e` is `a` after deciding to replan and some observations. */
  predicate Replanning(a: Control, e: Control) {
    SameWork(a, e) && Watched(a.log, e.log) && e.decisions == a.decisions + [REPLAN]
  }

  lemma ReplanningStops(a: Control, e: Control)
    requires Replanning(a, e)
    ensures StoppedAfter(a, Halt(e))
  {
    CountOne(a.decisions, REPLAN);
    HaltIs(a, e);
  }

  lemma ReplanningLooks(a: Control, e: Control, s: State)
    requires Replanning(a, e)
    ensures Replanning(a, Saw(e, s))
  {
    WatchedMore(a.log, e.log, Observed(s));
  }

  lemma CheckReplanKinds(x: Setup, a: Control, e: Control, m: Mode, p: Plan)
    requires m.Inner? && Replanning(a, e)
    ensures var d := CheckReplan(x, e, m, p);
            StoppedAfter(a, d) || (Installed(a, m, d) && Vetted(x, e, p, d.plan))
  {
    var s1 := Look(x, e);
    var e1 := Saw(e, s1);
    ReplanningLooks(a, e, s1);
    var plan := WithGoalState(x.Reg(), p, s1);
    var s2 := Look(x, e1);
    var e2 := Saw(e1, s2);
    ReplanningLooks(a, e1, s2);
    var s3 := Look(x, e2);
    var e3 := Saw(e2, s3);
    ReplanningLooks(a, e2, s3);
    ReplanningStops(a, e3);
    var s4 := Look(x, e3);
    ReplanningLooks(a, e3, s4);
    ReplanningStops(a, Saw(e3, s4));
  }

  lemma ReplanKinds(x: Setup, c: Control)
    requires c.mode.Inner? && !Achieved(x, c)
    requires x.config.replanner.Some? && c.replans < x.config.maxReplans
    ensures FromInner(x, c, TryReplan(x, Decided(Attempted(x, c), REPLAN), c.mode))
  {
    var a := Attempted(x, c);
    var e := Decided(a, REPLAN);
    var s := Look(x, e);
    ReplanningLooks(a, e, s);
    var q := x.config.replanner.value(FailedPlan(e, c.mode), s);
    if q.None? {
      ReplanningStops(a, Saw(e, s));
    } else {
      CheckReplanKinds(x, a, Saw(e, s), c.mode, q.value);
    }
  }

  lemma InnerKinds(x: Setup, c: Control)
    requires c.mode.Inner?
    ensures FromInner(x, c, Advance(x, c))
  {
    var a := Attempted(x, c);
    var d := Advance(x, c);
    if Achieved(x, c) {
      assert Progressed(x, c, d);
    } else if !x.flags.allowRecovery {
      HaltIs(a, a);
    } else {
      var mayReplan := x.config.replanner.Some? && c.replans < x.config.maxReplans;
      match Decide(x.config.maxRetries, c.mode.attempt, mayReplan, c.mode.skill.policy)
      case Retry =>
        var e := Decided(a, LOCAL_RETRY);
        assert Look(x, e) == Look(x, a);
        if Denied(x, c.mode.skill, c.mode.step, Look(x, a), Saw(a, Look(x, a)).log) {
          assert Regrounded(x, c, d);
        } else {
          assert Retried(x, c, d);
        }
      case Replace => ReplanKinds(x, c);
      case SafeStop =>
        CountOne(a.decisions, SAFE_STOP);
        HaltIs(a, Decided(a, SAFE_STOP));
    }
  }

  /** Every iteration that is not at the end is one of the kinds. */
  lemma AdvanceKinds(x: Setup, c: Control)
    ensures match c.mode
            case Outer => FromOuter(x, c, Advance(x, c))
            case Inner(_, _, _, _) => FromInner(x, c, Advance(x, c))
            case Final(_) => Advance(x, c) == c
  {
    match c.mode
    case Outer => OuterKinds(x, c);
    case Inner(_, _, _, _) => InnerKinds(x, c);
    case Final(_) =>
  }

  // ---- What an iteration appends to the log --------------------------------------------------------

  /** Observations, then at most one stop. */
  predicate LogGrew(a: Log, b: Log) {
    Watched(a, b) || (|b| > 0 && b[|b| - 1] == Stopped && Watched(a, b[..|b| - 1]))
  }

  /** The log an iteration starts to extend: after the attempt, if there is one. */
  function Base(x: Setup, c: Control): Log {
    if c.mode.Inner? then Attempted(x, c).log else c.log
  }

  lemma LogKinds(x: Setup, c: Control)
    ensures LogGrew(Base(x, c), Advance(x, c).log)
  {
    hide Advance, Attempted, SuffixFromRepair, DeniedNow, FromReplanner, Denied, Guarded, CountReground;
    AdvanceKinds(x, c);
  }
}
