/** Active observation at work: the readiness of a motion is hidden, and becomes available only
    after a number of failed refreshes. */
module MockRefresh {
  import opened Values
  import opened RobotState
  import opened Templates
  import opened Skills
  import opened Registry
  import opened DefaultSkills
  import opened Capability
  import opened Grounder
  import opened GrounderSpec
  import opened GrounderStops
  import opened GrounderIssues
  import opened Repairer
  import opened SearchCompleteness
  import opened Executor
  import opened RunPreflight
  import opened MockBackend
  import opened MockSensing
  import opened MockTruth
  import opened MockMotion
  import opened MockContracts
  import opened MockArmFirst

  /** Only the motion's readiness is hidden, and refreshing it fails `r` times. */
  function Shy(j: Job, r: nat): Sensors {
    var f := j.Enabled();
    Sensors(ObservationModel({f}, {}, map[], {f}, map[f := r as int], map[]), map[])
  }

  function ShySetup(config: Config, flags: Flags, j: Job, r: nat, m: Hidden, timing: Timing): Setup {
    MockSetup(config.(reg := DEFAULTS), flags, Shy(j, r), m, timing, Reported(Shy(j, r), [], m))
  }

  /** Everything is in order, and nothing has been asked for yet. */
  predicate InOrder(j: Job, m: Hidden) {
    Motion(j) && ArmsIn(j, m.world) && m.world.observedAt == map[] && m.attempts == map[]
  }

  /** After `i` refreshes. */
  predicate Tried(j: Job, m: Hidden, h: Hidden, i: nat) {
    h == m.(attempts := h.attempts) && Tries(h, j.Enabled()) == i
  }

  /** A look with the readiness unknown, or known. */
  predicate Shows(j: Job, m: Hidden, s: State, known: bool) {
    && s.active == m.world.active && s.stale == {} && s.conflicts == map[]
    && Raw(s, j.Enabled()) == (if known then Raw(m.world, j.Enabled()) else None)
    && forall f :: f in m.world.vals.Keys + s.vals.Keys && f != j.Enabled() ==> Raw(s, f) == Raw(m.world, f)
  }

  lemma ShyLook(j: Job, r: nat, m: Hidden, h: Hidden, i: nat, timing: Timing, log: Log, s: State)
    requires InOrder(j, m) && Tried(j, m, h, i) && Prompted(timing)
    requires s == Observe(Shy(j, r), h, At(timing.stamp(log)))
    ensures Shows(j, m, s, i > r)
    ensures forall e, reading :: Seen(s, timing.clock(log + [e], reading))
  {
    hide Motion, ArmsIn;
    var sensors, stamp := Shy(j, r), At(timing.stamp(log));
    ObserveReads(sensors, h, stamp);
    assert Unavailable(sensors, h, j.Enabled()) <==> i <= r;
    assert SensorChanges(sensors, h) == if i <= r then map[j.Enabled() := None] else map[];
    assert forall f :: StampOf(s, f) == stamp;
    forall e, reading ensures Seen(s, timing.clock(log + [e], reading)) {
      assert timing.clock(log + [e], reading) - timing.stamp(log) <= 5.0;
    }
  }

  // ---- While the readiness is unknown ----------------------------------------------------------------

  lemma UnknownEvaluations(j: Job, m: Hidden, s: State, now: real)
    requires InOrder(j, m) && Shows(j, m, s, false) && Seen(s, now)
    ensures var evals := EvaluatePreconditions(j.Contract(), s, j.step.arguments, now);
            && |evals| == 3
            && evals[0].field == j.Enabled() && evals[0].expected == YES && evals[0].evidence.status == Unknown
            && (forall k :: 1 <= k < 3 ==> evals[k].Satisfied() && evals[k].field != j.Enabled())
  {
    hide Format, EpistemicValue, Motion, Seen, NoFault;
    JobPreconditions(j);
    ArmNames(j);
    ArmsShown(j, m, s);
    EpistemicExact(s, j.Enabled(), MAX_AGE, now);
    SeenIsKnown(s, now, j.Safe());
    SeenIsKnown(s, now, j.OtherSafe());
    var ps := j.Contract().preconditions;
    assert ps[0] in ps && ps[1] in ps && ps[2] in ps;
  }

  lemma ArmsShown(j: Job, m: Hidden, s: State)
    requires InOrder(j, m) && Shows(j, m, s, false)
    ensures Raw(s, j.Safe()) == Some(YES) && Raw(s, j.OtherSafe()) == Some(YES)
    ensures Raw(s, EMERGENCY) == Raw(m.world, EMERGENCY) && Raw(s, FAULT) == Raw(m.world, FAULT)
    ensures Raw(s, POSITION) == Raw(m.world, POSITION)
    ensures j.Safe() != j.Enabled() && j.OtherSafe() != j.Enabled()
  {
    hide ValidArgs;
    ArmNames(j);
    assert {EMERGENCY, FAULT, POSITION} !! {j.Enabled()} && j.OtherSafe() != j.Enabled();
  }

  /** The report of the motion: not valid, no stop, and it asks for the readiness alone. */
  lemma UnknownReport(j: Job, r: nat, m: Hidden, caps: Option<Capabilities>, now: real, plan: Plan, s: State)
    requires InOrder(j, m) && Shows(j, m, s, false) && Seen(s, now)
    requires plan.steps == [j.step] && Permissive(j, caps)
    ensures var report := Ground(DEFAULTS, caps, now, plan, s);
            !report.valid && !report.RequiresStop()
    ensures forall f :: Wanting(DEFAULTS, caps, now, plan.steps, s, 0, f) <==> f == j.Enabled()
  {
    hide Ground, Hopeless, Lookup, ValidArgs, ExpectedEffects, GroupAgrees, Seen, Motion, Evaluate, EpistemicValue,
         NoFault, Permissive, ArmsIn;
    var steps, step := plan.steps, j.step;
    JobCallable(j);
    UnknownEvaluations(j, m, s, now);
    var evals := EvaluatePreconditions(j.Contract(), s, step.arguments, now);
    UnknownInvalid(j, m, caps, now, plan, s);
    UnknownNotHopeless(j, m, caps, s);
    PermissiveSupports(j, caps);
    assert SimSkip(DEFAULTS, caps, steps, s, 0) == s && Ids(steps[..0]) == {};
    assert !BlocksAt(DEFAULTS, caps, steps, s, 0);
    assert GroupNames(steps) == [] by { assert steps[..0] == []; MotionUngrouped(j); }
    RequiresStopExact(DEFAULTS, caps, now, plan, s);
    assert FirstWith(steps, step.id, 0);
    assert POLICY[0] == "observe";
    var ps := j.Contract().preconditions;
    assert ps[0] in ps;
    forall f ensures Wanting(DEFAULTS, caps, now, steps, s, 0, f) <==> f == j.Enabled() {
      UnknownWanting(j, caps, now, plan, s, f);
    }
  }

  lemma MotionUngrouped(j: Job)
    requires Motion(j)
    ensures j.step.parallelGroup.None?
  {
  }

  lemma PermissiveSupports(j: Job, caps: Option<Capabilities>)
    requires Permissive(j, caps)
    ensures caps.Some? ==> caps.value.Supports(j.step.skill)
  {
  }

  lemma UnknownWanting(j: Job, caps: Option<Capabilities>, now: real, plan: Plan, s: State, f: string)
    requires Motion(j) && plan.steps == [j.step] && Permissive(j, caps)
    requires var evals := EvaluatePreconditions(j.Contract(), s, j.step.arguments, now);
             && |evals| == 3 && evals[0].field == j.Enabled() && evals[0].evidence.status == Unknown
             && forall k :: 1 <= k < 3 ==> evals[k].Satisfied() && evals[k].field != j.Enabled()
    ensures Wanting(DEFAULTS, caps, now, plan.steps, s, 0, f) <==> f == j.Enabled()
  {
    hide Lookup, ValidArgs, Format, EpistemicValue, Motion, Permissive;
    JobCallable(j);
    PermissiveSupports(j, caps);
    var steps, ps := plan.steps, j.Contract().preconditions;
    var evals := EvaluatePreconditions(j.Contract(), s, j.step.arguments, now);
    assert SimSkip(DEFAULTS, caps, steps, s, 0) == s;
    assert FirstWith(steps, j.step.id, 0);
    assert POLICY[0] == "observe";
    assert Permits(DEFAULTS, steps, j.step.id, "observe");
    assert ps[0] in ps && evals[0] == Evaluate(ps[0], s, j.step.arguments, now);
    forall p | p in ps && Format(p.field, j.step.arguments) != j.Enabled()
      ensures EpistemicValue(s, Format(p.field, j.step.arguments), p.maxAge, now).status == Known
    {
      var k :| 0 <= k < 3 && ps[k] == p;
      assert evals[k] == Evaluate(ps[k], s, j.step.arguments, now);
    }
  }

  lemma UnknownInvalid(j: Job, m: Hidden, caps: Option<Capabilities>, now: real, plan: Plan, s: State)
    requires InOrder(j, m) && Shows(j, m, s, false) && Seen(s, now) && plan.steps == [j.step]
    ensures !Ground(DEFAULTS, caps, now, plan, s).valid
  {
    hide Ground, Lookup, ValidArgs, ExpectedEffects, Seen, EpistemicValue, Format, Motion, ArmsIn;
    JobCallable(j);
    UnknownEvaluations(j, m, s, now);
    GroundExact(DEFAULTS, caps, now, plan, s);
    var p := j.Contract().preconditions[0];
    assert p in j.Contract().preconditions;
    assert !Evaluate(p, s, j.step.arguments, now).Satisfied();
    assert SimAt(DEFAULTS, plan.steps, s, 0) == s;
    assert !StepGrounded(DEFAULTS, caps, now, plan.steps[0], s);
  }

  lemma UnknownNotHopeless(j: Job, m: Hidden, caps: Option<Capabilities>, s: State)
    requires InOrder(j, m) && Shows(j, m, s, false) && Permissive(j, caps)
    ensures !Hopeless(j.Contract(), caps, j.step, s)
  {
    hide ExpectedEffects, ValidArgs;
    ArmsShown(j, m, s);
    JobEffects(j, s);
    JobTarget(j, s);
  }

  // ---- No skill brings readiness ---------------------------------------------------------------------------

  lemma SuffixTooLong(suffix: string, field: string)
    requires |suffix| >= |field|
    ensures Match([Hole(ARM), Lit(suffix)], field).None?
  {
    hide Match, Format;
    var t: Template := [Hole(ARM), Lit(suffix)];
    MatchSound(t, field);
    if Match(t, field).Some? {
      var b := Match(t, field).value;
      assert ARM in Holes(t) by { assert t[0] in t; }
      ArmFormat(suffix, AsArgs(b));
    }
  }

  lemma NobodyEnables(sk: Skill, j: Job, s: State)
    requires sk in DEFAULTS && Motion(j)
    ensures SynthesizeCall(sk, sk.effects, j.Enabled(), YES, s).None?
  {
    hide Match, ValidArgs;
    var f := j.Enabled();
    LiteralMatchesOnlyItself(POSITION, f);
    LiteralMatchesOnlyItself(LIFT, f);
    LiteralMatchesOnlyItself(YAW, f);
    LiteralMatchesOnlyItself(PITCH, f);
    SuffixTooLong("_arm_ready", f);
    NoSafeSuffix(j);
    assert forall e :: e in sk.effects ==> SynthesizeArguments(e, f, YES, s).None?;
  }

  lemma EndsOtherwise(arm: string, j: Job)
    ensures arm + "_arm_safe" != j.Enabled()
  {
    var a, f := arm + "_arm_safe", j.Enabled();
    assert a[|a| - 1] == 'e' && f[|f| - 1] == 'y';
  }

  lemma NoSafeSuffix(j: Job)
    ensures Match(ARM_SAFE, j.Enabled()).None?
  {
    hide Match, Format;
    MatchSound(ARM_SAFE, j.Enabled());
    if Match(ARM_SAFE, j.Enabled()).Some? {
      var args := AsArgs(Match(ARM_SAFE, j.Enabled()).value);
      ArmFormat("_arm_safe", args);
      EndsOtherwise(ArmOf(args), j);
    }
  }

  lemma ReadinessIsNotRepaired(limits: Limits, now: real, plan: Plan, j: Job, m: Hidden, s: State)
    requires InOrder(j, m) && Shows(j, m, s, false) && Seen(s, now)
    requires plan.steps == [j.step] && plan.metadata.blocked == {}
    ensures Repair(DEFAULTS, limits, now, plan, s, false) == None
  {
    hide Lookup, ValidArgs, Seen, Motion, ArmsIn, EvaluatePreconditions, SynthesizeCall;
    var c := RepairContext(DEFAULTS, limits, now, plan);
    var p := Progress([], s, [], 0, NO_STATS);
    JobCallable(j);
    UnknownEvaluations(j, m, s, now);
    var evals := EvaluatePreconditions(j.Contract(), s, j.step.arguments, now);
    forall sk | sk in DEFAULTS ensures SynthesizeCall(sk, sk.effects, j.Enabled(), YES, s).None? {
      NobodyEnables(sk, j, s);
    }
    NoCandidates(DEFAULTS, j.Enabled(), YES, s, {});
    NotSatisfied(s, j.Enabled(), evals[0]);
    assert Search(c, j.Enabled(), YES, s, {}, 1, NO_STATS).found == None;
    assert Mend(c, evals[0], p).progress == None;
    assert MendAll(c, evals, p).progress == None;
    RepairOne(c, j.step, p);
  }

  lemma NotSatisfied(s: State, f: string, e: Evaluation)
    requires Raw(s, f) == None
    ensures !FactSatisfied(s, f, YES)
  {
  }

  // ---- Preflight ---------------------------------------------------------------------------------------------

  lemma ShyPermissive(config: Config, flags: Flags, j: Job, r: nat, m: Hidden, timing: Timing)
    requires InOrder(j, m)
    ensures Permissive(j, ShySetup(config, flags, j, r, m, timing).Caps())
  {
    hide ValidArgs, ArmsIn;
    NoSemantics([], "retract_arm");
  }

  /** The readiness, and nothing else. */
  predicate OnlyReadiness(j: Job, asked: seq<set<string>>) {
    forall i :: 0 <= i < |asked| ==> asked[i] == {j.Enabled()}
  }

  /** The evidence after `i` refreshes of the readiness. */
  lemma {:induction false} ShyEvidence(config: Config, flags: Flags, j: Job, r: nat, m: Hidden, timing: Timing,
                                       p: Episode, i: nat)
    requires InOrder(j, m) && Prompted(timing) && i <= |p.asked| && p.log == [] && p.last == None
    requires OnlyReadiness(j, p.asked[..i])
    ensures var x := ShySetup(config, flags, j, r, m, timing);
            && Tried(j, m, HiddenAfter(Shy(j, r), m, LogAt(x, p, i)), i)
            && Shows(j, m, StateAt(x, p, i), i > r)
            && forall reading :: Seen(StateAt(x, p, i), timing.clock(LogAt(x, p, i), reading))
  {
    hide Observe, InOrder, Shows, Seen, Prompted;
    var x := ShySetup(config, flags, j, r, m, timing);
    var sensors, s := Shy(j, r), StateAt(x, p, i);
    if i == 0 {
      var none: Log := [];
      assert HiddenAfter(sensors, m, none) == m;
      assert Tries(m, j.Enabled()) == 0 by { FreshTries(j, m); }
      ShyLook(j, r, m, m, 0, timing, none, s);
      HiddenOne(sensors, m, none, Observed(s));
      assert LogAt(x, p, 0) == none + [Observed(s)];
    } else {
      assert p.asked[..i - 1] == p.asked[..i][..i - 1] && p.asked[i - 1] == p.asked[..i][i - 1];
      ShyEvidence(config, flags, j, r, m, timing, p, i - 1);
      var log := LogAt(x, p, i - 1);
      var h := Bump(HiddenAfter(sensors, m, log), {j.Enabled()});
      assert s == Observe(sensors, h, At(timing.stamp(log)));
      ShyLook(j, r, m, h, i, timing, log, s);
      HiddenOne(sensors, m, log, Acquired({j.Enabled()}, s));
      assert LogAt(x, p, i) == log + [Acquired({j.Enabled()}, s)];
    }
  }

  lemma FreshTries(j: Job, m: Hidden)
    requires InOrder(j, m)
    ensures Tries(m, j.Enabled()) == 0
  {
  }

  lemma KnownIsIn(j: Job, m: Hidden, s: State)
    requires InOrder(j, m) && Shows(j, m, s, true)
    ensures ArmsIn(j, s)
  {
    hide ValidArgs;
    ArmNames(j);
    assert forall f :: f in {j.Safe(), j.OtherSafe(), j.Ready(), EMERGENCY, FAULT, POSITION} ==>
      Raw(s, f) == Raw(m.world, f);
  }

  /** What the `i`-th report says. */
  lemma ShyReport(config: Config, flags: Flags, j: Job, r: nat, m: Hidden, timing: Timing, p: Episode, i: nat)
    requires InOrder(j, m) && Prompted(timing) && i <= |p.asked|
    requires p.plan == JobPlan(j) && p.log == [] && p.last == None
    requires OnlyReadiness(j, p.asked[..i])
    ensures var x := ShySetup(config, flags, j, r, m, timing);
            && (i > r ==> ReportAt(x, p, i).valid)
            && (i <= r ==> !ReportAt(x, p, i).valid && !ReportAt(x, p, i).RequiresStop() &&
                           forall f :: AskedAt(x, p, i, f) <==> f == j.Enabled())
  {
    hide Observe, InOrder, Shows, Seen, Prompted, Ground, LogAt, StateAt, Report.RequiresStop, Wanting,
         Permissive, WithGoalState;
    var x := ShySetup(config, flags, j, r, m, timing);
    ShyEvidence(config, flags, j, r, m, timing, p, i);
    ShyPermissive(config, flags, j, r, m, timing);
    WithGoalKeepsSteps(JobPlan(j), StateAt(x, p.(asked := []), 0));
    var now, s, plan := x.backend.clock(LogAt(x, p, i), ForGround), StateAt(x, p, i), Goaled(x, p);
    if i > r {
      KnownIsIn(j, m, s);
      InOrderMotion(j, m);
      MotionPlanGrounds(x.Caps(), now, plan, j, s);
    } else {
      UnknownReport(j, r, m, x.Caps(), now, plan, s);
      assert plan.steps == [j.step] && j.Enabled() != "" && x.backend.capabilities.refreshable == {j.Enabled()};
      forall f ensures AskedAt(x, p, i, f) <==> f == j.Enabled() {
        assert Wanting(x.Reg(), x.Caps(), now, plan.steps, s, 0, f) <==> f == j.Enabled();
      }
    }
  }

  lemma InOrderMotion(j: Job, m: Hidden)
    requires InOrder(j, m)
    ensures Motion(j)
  {
  }

  lemma WithGoalKeepsSteps(plan: Plan, s: State)
    ensures WithGoalState(DEFAULTS, plan, s).steps == plan.steps
    ensures WithGoalState(DEFAULTS, plan, s).metadata.blocked == plan.metadata.blocked
  {
  }

  /** How often preflight asks. */
  function Refreshes(config: Config, flags: Flags, r: nat): nat {
    if !flags.activeObservation then 0
    else if r < config.maxObservations then r + 1
    else config.maxObservations
  }

  lemma {:induction false} AsksForReadiness(config: Config, flags: Flags, j: Job, r: nat, m: Hidden, timing: Timing,
                                            p: Episode, i: nat)
    requires InOrder(j, m) && Prompted(timing) && p.plan == JobPlan(j) && p.log == [] && p.last == None
    requires Asks(ShySetup(config, flags, j, r, m, timing), p) && i <= |p.asked|
    ensures OnlyReadiness(j, p.asked[..i]) && i <= Refreshes(config, flags, r)
  {
    hide InOrder, Prompted, ReportAt, AskedAt, Report.RequiresStop;
    var x := ShySetup(config, flags, j, r, m, timing);
    if i > 0 {
      AsksForReadiness(config, flags, j, r, m, timing, p, i - 1);
      ShyReport(config, flags, j, r, m, timing, p, i - 1);
      assert AsksAgain(x, p, i - 1);
      assert p.asked[i - 1] == {j.Enabled()};
      assert p.asked[..i] == p.asked[..i - 1] + [p.asked[i - 1]];
    }
  }

  /** Preflight and active observation. The readiness of the motion is hidden, and refreshing it
      fails `r` times. Then preflight asks for it, and for nothing else, exactly `r + 1` times
      and launches the plan as given, if active observation is on and its budget is larger
      than `r`; otherwise it asks as often as it may and refuses, for no repair can bring
      readiness about. */
  lemma RefreshThenLaunch(config: Config, flags: Flags, j: Job, r: nat, m: Hidden, timing: Timing)
    returns (p: Episode)
    requires InOrder(j, m) && Prompted(timing) && flags.groundPlan
    ensures var x := ShySetup(config, flags, j, r, m, timing);
            var c := Start(x, JobPlan(j), [], None);
            var n := Refreshes(config, flags, r);
            && (c.mode.Outer? <==> flags.activeObservation && r < config.maxObservations)
            && (c.mode.Outer? ==> c.plan.steps == [j.step] && c.decisions == Observes(r + 1))
            && |c.log| == n + 1 && c.log[0].Observed?
            && forall i :: 1 <= i <= n ==> c.log[i].Acquired? && c.log[i].fields == {j.Enabled()}
  {
    hide InOrder, Prompted, Start, Ended, Asks, ReportAt, WithGoalState, LogAt, StateAt, Refreshes;
    var x := ShySetup(config, flags, j, r, m, timing);
    p := PreflightExact(x, JobPlan(j), [], None);
    var n := |p.asked|;
    AsksExactly(config, flags, j, r, m, timing, p);
    ShyReport(config, flags, j, r, m, timing, p, n) by { assert p.asked[..n] == p.asked; }
    if n <= r { ShyIsRefused(config, flags, j, r, m, timing, p); }
    EndsThere(x, p, Start(x, JobPlan(j), [], None));
    WithGoalKeepsSteps(JobPlan(j), StateAt(x, p.(asked := []), 0));
    LogOfEpisode(x, p, n);
    RefreshesMeans(config, flags, r);
  }

  lemma RefreshesMeans(config: Config, flags: Flags, r: nat)
    ensures var n := Refreshes(config, flags, r);
            && n <= r + 1 && (n == r + 1 <==> flags.activeObservation && r < config.maxObservations)
  {
  }

  lemma AsksExactly(config: Config, flags: Flags, j: Job, r: nat, m: Hidden, timing: Timing, p: Episode)
    requires InOrder(j, m) && Prompted(timing) && p.plan == JobPlan(j) && p.log == [] && p.last == None
    requires Asks(ShySetup(config, flags, j, r, m, timing), p)
    ensures OnlyReadiness(j, p.asked) && |p.asked| == Refreshes(config, flags, r)
  {
    hide InOrder, Prompted, ReportAt, AskedAt, Report.RequiresStop;
    var x := ShySetup(config, flags, j, r, m, timing);
    var n := |p.asked|;
    AsksForReadiness(config, flags, j, r, m, timing, p, n);
    assert p.asked[..n] == p.asked;
    ShyReport(config, flags, j, r, m, timing, p, n);
    StopsAsking(x, p, j);
    if n <= r { assert AskedAt(x, p, n, j.Enabled()); }
  }

  lemma StopsAsking(x: Setup, p: Episode, j: Job)
    requires Asks(x, p)
    ensures !AsksAgain(x, p, |p.asked|)
  {
  }

  lemma EndsThere(x: Setup, p: Episode, c: Control)
    requires Ended(x, p, c)
    ensures c.log == LogAt(x, p, |p.asked|)
    ensures ReportAt(x, p, |p.asked|).valid ==>
              && c.mode == Outer && c.plan == Goaled(x, p)
              && c.decisions == (if |p.asked| == 0 then [EXECUTE] else Observes(|p.asked|))
    ensures !ReportAt(x, p, |p.asked|).valid && RepairedAt(x, p).None? ==> c.mode == Final(false)
  {
  }

  lemma {:induction false} LogOfEpisode(x: Setup, p: Episode, i: nat)
    requires i <= |p.asked| && p.log == []
    ensures var log := LogAt(x, p, i);
            && |log| == i + 1 && log[0].Observed?
            && forall k :: 1 <= k <= i ==> log[k].Acquired? && log[k].fields == p.asked[k - 1]
  {
    hide StateAt;
    if i > 0 { LogOfEpisode(x, p, i - 1); }
  }

  lemma ShyIsRefused(config: Config, flags: Flags, j: Job, r: nat, m: Hidden, timing: Timing, p: Episode)
    requires InOrder(j, m) && Prompted(timing) && p.plan == JobPlan(j) && p.log == [] && p.last == None
    requires OnlyReadiness(j, p.asked) && |p.asked| <= r
    ensures RepairedAt(ShySetup(config, flags, j, r, m, timing), p).None?
  {
    hide InOrder, Prompted, Repair, WithGoalState, Shows, Seen, LogAt, StateAt;
    var x := ShySetup(config, flags, j, r, m, timing);
    var n := |p.asked|;
    assert p.asked[..n] == p.asked;
    ShyEvidence(config, flags, j, r, m, timing, p, n);
    WithGoalKeepsSteps(JobPlan(j), StateAt(x, p.(asked := []), 0));
    ReadinessIsNotRepaired(config.limits, x.backend.clock(LogAt(x, p, n), ForRepair), Goaled(x, p), j, m,
                           StateAt(x, p, n));
  }
}
