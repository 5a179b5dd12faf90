/** Reports against hidden truth. */
module MockTruth {
  import opened Values
  import opened RobotState
  import opened Skills
  import opened Registry
  import opened Capability
  import opened Grounder
  import opened Repairer
  import opened Executor
  import opened Transitions
  import opened RunSafety
  import opened MockBackend
  import opened MockSensing

  // ---- What success rests on --------------------------------------------------------------------

  /** A success report ends with an observation in which every goal is known and met. */
  predicate SuccessSeen(x: Setup, c: Control) {
    c.mode == Final(true) ==>
      && |c.log| > 0
      && var before := c.log[..|c.log| - 1];
         var s := Overlay(x.backend.observe(before), c.last);
         c.log == before + [Observed(s)] && GoalsMet(c.plan, s)
  }

  lemma SuccessSeenKept(x: Setup, base: nat, c: Control)
    requires x.flags.verifyOutcomes && AtHead(x, base, c) && SuccessSeen(x, c)
    ensures SuccessSeen(x, Advance(x, c))
  {
    hide Advance, GoalsMet, Attempted, FromReplanner, SuffixFromRepair, DeniedNow;
    AdvanceKinds(x, c);
    var d := Advance(x, c);
    if c.mode.Outer? && Completed(x, c, d) {
      assert d.log[..|d.log| - 1] == c.log;
    }
    if c.mode.Inner? {
      assert d.mode != Final(true);
    }
  }

  lemma {:induction false} SuccessSeenAlways(x: Setup, base: nat, c: Control, n: nat)
    requires x.flags.verifyOutcomes && AtHead(x, base, c) && SuccessSeen(x, c)
    ensures AtHead(x, base, Iterate(x, c, n)) && SuccessSeen(x, Iterate(x, c, n))
  {
    hide Advance, AtHead, SuccessSeen;
    if n > 0 {
      SuccessSeenAlways(x, base, c, n - 1);
      AtHeadKept(x, base, Iterate(x, c, n - 1));
      SuccessSeenKept(x, base, Iterate(x, c, n - 1));
    }
  }

  /** Against any backend, success with outcome verification means the goals were met in the
      last observation of the run. */
  lemma SuccessIsObserved(x: Setup, plan: Plan, log: Log, last: Option<string>, n: nat)
    requires x.flags.verifyOutcomes
    ensures SuccessSeen(x, After(x, plan, log, last, n))
  {
    hide Start, Advance, GoalsMet;
    StartFresh(x, plan, log, last);
    SuccessSeenAlways(x, |log|, Start(x, plan, log, last), n);
  }

  // ---- The mock's observations ------------------------------------------------------------------------

  /** A field no override touches is read from the world or not at all. */
  lemma ObservedOrHidden(sensors: Sensors, m: Hidden, stamp: Stamp, field: string)
    requires field !in sensors.model.overrides
    ensures var seen := Raw(Observe(sensors, m, stamp), field);
            seen.Some? ==> seen == Raw(m.world, field)
  {
  }

  /** The goals an oracle can hold the report to. */
  predicate Audited(sensors: Sensors, field: string) {
    field !in sensors.model.overrides && field != LAST_RESULT
  }

  /** Every audited goal holds in the hidden world, within the report tolerance. */
  predicate TrueInWorld(sensors: Sensors, m: Hidden, plan: Plan) {
    plan.metadata.goals.Some? ==>
      forall g :: g in plan.metadata.goals.value && Audited(sensors, g.0) ==>
        Within(Raw(m.world, g.0), g.1, REPORT_TOLERANCE)
  }

  lemma SeenGoalsAreTrue(sensors: Sensors, m: Hidden, stamp: Stamp, last: Option<string>, plan: Plan)
    requires GoalsMet(plan, Overlay(Observe(sensors, m, stamp), last))
    ensures TrueInWorld(sensors, m, plan)
  {
    var s := Observe(sensors, m, stamp);
    var t := Overlay(s, last);
    if plan.metadata.goals.Some? {
      forall g | g in plan.metadata.goals.value && Audited(sensors, g.0)
        ensures Within(Raw(m.world, g.0), g.1, REPORT_TOLERANCE)
      {
        assert GoalMet(t, g);
        assert Raw(t, g.0) == Raw(s, g.0);
        ObservedOrHidden(sensors, m, stamp, g.0);
      }
    }
  }

  function MockSetup(config: Config, flags: Flags, sensors: Sensors, m: Hidden, timing: Timing,
                     caps: Capabilities): Setup {
    Setup(config, flags, AsBackend(sensors, m, timing, caps))
  }

  /** No false success without a sensor override. Whatever is hidden, stale, contradictory or
      faulty in the mock: when a run with outcome verification reports success, every goal
      field that is not overridden, other than the executor's own last result, holds in the
      hidden world. */
  lemma NoFalseSuccess(config: Config, flags: Flags, sensors: Sensors, m: Hidden, timing: Timing,
                       caps: Capabilities, plan: Plan, log: Log, last: Option<string>, n: nat)
    requires flags.verifyOutcomes
    ensures var c := After(MockSetup(config, flags, sensors, m, timing, caps), plan, log, last, n);
            c.mode == Final(true) ==> TrueInWorld(sensors, HiddenAfter(sensors, m, c.log), c.plan)
  {
    hide After, GoalsMet, Observe;
    var x := MockSetup(config, flags, sensors, m, timing, caps);
    SuccessIsObserved(x, plan, log, last, n);
    var c := After(x, plan, log, last, n);
    if c.mode == Final(true) {
      var before := c.log[..|c.log| - 1];
      SeenGoalsAreTrue(sensors, HiddenAfter(sensors, m, before), At(timing.stamp(before)), c.last, c.plan);
    }
  }

  /** How far a float goal is missed by. */
  function Gap(world: State, g: (string, Value)): real {
    var actual := Raw(world, g.0);
    if g.1.Float? && actual.Some? && Num(actual.value).Some? then Abs(Num(actual.value).value - g.1.r) else 0.0
  }

  /** In the oracle's terms. After a successful, verified run the oracle, asked about audited
      goals at any tolerance, disagrees exactly when a float goal is missed by more than that
      tolerance and no more than the report's; so at the report's tolerance it agrees. */
  lemma OracleConfirms(config: Config, flags: Flags, sensors: Sensors, m: Hidden, timing: Timing,
                       caps: Capabilities, plan: Plan, log: Log, last: Option<string>, n: nat,
                       expected: Goals, tolerance: real)
    requires flags.verifyOutcomes
    requires var c := After(MockSetup(config, flags, sensors, m, timing, caps), plan, log, last, n);
             && c.mode == Final(true) && c.plan.metadata.goals.Some?
             && forall g :: g in expected ==> g in c.plan.metadata.goals.value && Audited(sensors, g.0)
    ensures var c := After(MockSetup(config, flags, sensors, m, timing, caps), plan, log, last, n);
            var world := HiddenAfter(sensors, m, c.log).world;
            && (!OracleAgrees(world, expected, tolerance) <==>
                  exists g :: g in expected && g.1.Float? && tolerance < Gap(world, g) <= REPORT_TOLERANCE)
            && (tolerance >= REPORT_TOLERANCE ==> OracleAgrees(world, expected, tolerance))
  {
    hide After, HiddenAfter;
    NoFalseSuccess(config, flags, sensors, m, timing, caps, plan, log, last, n);
    var c := After(MockSetup(config, flags, sensors, m, timing, caps), plan, log, last, n);
    var world := HiddenAfter(sensors, m, c.log).world;
    forall g | g in expected
      ensures Within(Raw(world, g.0), g.1, REPORT_TOLERANCE)
      ensures !Within(Raw(world, g.0), g.1, tolerance) <==>
                g.1.Float? && tolerance < Gap(world, g) <= REPORT_TOLERANCE
    {
    }
  }

  // ---- Exactly which goals can be reported falsely -----------------------------------------------------

  /** The oracle's own default. */
  const ORACLE_TOLERANCE := 0.000001

  predicate FalseGoal(plan: Plan, world: State, field: string) {
    plan.metadata.goals.Some? &&
    exists g :: g in plan.metadata.goals.value && g.0 == field && !Within(Raw(world, field), g.1, REPORT_TOLERANCE)
  }

  /** A successful, verified run with a goal on the field that does not hold in the world. */
  predicate Deceives(config: Config, flags: Flags, sensors: Sensors, m: Hidden, timing: Timing,
                     caps: Capabilities, plan: Plan, log: Log, last: Option<string>, n: nat, field: string)
  {
    flags.verifyOutcomes &&
    var c := After(MockSetup(config, flags, sensors, m, timing, caps), plan, log, last, n);
    c.mode == Final(true) && FalseGoal(c.plan, HiddenAfter(sensors, m, c.log).world, field)
  }

  /** The sensors make up a value, or the executor reports its own; and nothing marks it as
      contradictory, or as stale for good. */
  predicate Deceivable(sensors: Sensors, field: string) {
    var model := sensors.model;
    && (field == LAST_RESULT || (field in model.overrides && model.overrides[field].Some?))
    && !Disputed(sensors, field)
    && (field in model.stale ==> field in model.refreshable)
  }

  lemma DeceivedOnlyIfDeceivable(config: Config, flags: Flags, sensors: Sensors, m: Hidden, timing: Timing,
                                 caps: Capabilities, plan: Plan, log: Log, last: Option<string>, n: nat,
                                 field: string)
    requires Deceives(config, flags, sensors, m, timing, caps, plan, log, last, n, field)
    ensures Deceivable(sensors, field)
  {
    hide After, Observe;
    var x := MockSetup(config, flags, sensors, m, timing, caps);
    SuccessIsObserved(x, plan, log, last, n);
    var c := After(x, plan, log, last, n);
    var before := c.log[..|c.log| - 1];
    var h := HiddenAfter(sensors, m, before);
    var o := Observe(sensors, h, At(timing.stamp(before)));
    var s := Overlay(o, c.last);
    assert GoalsMet(c.plan, s);
    var g :| g in c.plan.metadata.goals.value && g.0 == field &&
             !Within(Raw(h.world, field), g.1, REPORT_TOLERANCE);
    assert GoalMet(s, g);
    ObserveReads(sensors, h, At(timing.stamp(before)));
    assert field != LAST_RESULT ==> Raw(s, field) == Raw(o, field);
    assert Contradicted(s, field) == Disputed(sensors, field);
  }

  /** No step, one goal. */
  function GoalPlan(field: string, target: Value): Plan {
    Plan("one goal", [], "plan_1", 0, Metadata(Some([(field, target)]), false, {}))
  }

  /** A world that holds these values, and has tried to acquire so often. */
  function Showing(vals: map<string, Value>, attempts: map<string, nat>): Hidden {
    Hidden(State(vals, {}, map[], {}, map[], At(0.0)), map[], map[], attempts)
  }

  function Honest(overrides: Changes): Sensors {
    Sensors(ObservationModel({}, {}, overrides, {}, map[], map[]), map[])
  }

  function PlainSetup(sensors: Sensors, m: Hidden): Setup {
    MockSetup(PLAIN_CONFIG, PLAIN_FLAGS, sensors, m, STILL, PLAIN_CAPS)
  }

  const PLAIN_CONFIG := Config([], Limits(16, 6, 64), 1, 1, 1, None)
  const PLAIN_FLAGS := Flags(true, true, true, true, true, true, true)
  const STILL := Timing(l => 0.0, (l: Log, r: Reading) => 0.0, l => 0.0)
  const PLAIN_CAPS := Capabilities(None, None, {}, [])

  /** The run of a plan without steps: two looks, and the goals decide on the second. */
  lemma EmptyPlanRun(x: Setup, plan: Plan, last: Option<string>)
    requires plan.steps == [] && plan.metadata.goals.Some? && x.flags.groundPlan && x.flags.verifyOutcomes
    ensures var s := Overlay(x.backend.observe([]), last);
            var log := [Observed(s)];
            var t := Overlay(x.backend.observe(log), last);
            var c := After(x, plan, [], last, 1);
            && c.mode == Final(GoalsMet(plan, t)) && c.plan == plan
            && (GoalsMet(plan, t) ==> c.log == log + [Observed(t)])
  {
    hide GoalsMet, Overlay;
    var c := Start(x, plan, [], last);
    var s := Overlay(x.backend.observe([]), last);
    var report := Ground(x.Reg(), x.Caps(), x.backend.clock([Observed(s)], ForGround), plan, s);
    assert AllIssues(x.Reg(), x.Caps(), x.backend.clock([Observed(s)], ForGround), plan, s) == [];
    assert report.valid;
    assert c.log == [Observed(s)];
    assert Iterate(x, c, 1) == Advance(x, Iterate(x, c, 0));
  }

  lemma LooksChangeNothing(sensors: Sensors, m: Hidden, a: Event, b: Event)
    requires a.Observed? && b.Observed?
    ensures HiddenAfter(sensors, m, []) == m && HiddenAfter(sensors, m, [a]) == m
    ensures HiddenAfter(sensors, m, [a] + [b]) == m
  {
    assert [a][..0] == [] && ([a] + [b])[..1] == [a];
  }

  // A deceived run: one command is acknowledged, and the goal is on what the sensors make up.

  const PING := Skill("ping", [], {}, [], [], 1.0, [], {}, {}, false)
  const PING_STEP := Step("s1", "ping", map[], [], None, None)
  const PING_CONFIG := PLAIN_CONFIG.(reg := [PING])
  const PING_FLAGS := PLAIN_FLAGS.(groundPlan := false, runtimeGuard := false)

  function PingPlan(field: string, target: Value): Plan {
    GoalPlan(field, target).(steps := [PING_STEP])
  }

  function PingSetup(sensors: Sensors, m: Hidden): Setup {
    MockSetup(PING_CONFIG, PING_FLAGS, sensors, m, STILL, PLAIN_CAPS)
  }

  /** The world that deceives: nothing is there, the field has been asked for often enough, and
      the command will be acknowledged without effect. */
  function Void(sensors: Sensors, field: string): Hidden {
    var failures := sensors.model.refreshFailures;
    Showing(map[], map[field := if field in failures && failures[field] > 0 then failures[field] + 1 else 1])
      .(faults := map["ping" := [Fault(PhysicalFailure, map[])]])
  }

  /** What is reported of the void. */
  function Illusion(sensors: Sensors, field: string): Value {
    if field in sensors.model.overrides && sensors.model.overrides[field].Some? then
      sensors.model.overrides[field].value
    else Str("success")
  }

  /** The log of a run of `PING`, up to the last look. */
  function PingLog(x: Setup): Log {
    var first := [Observed(Overlay(x.backend.observe([]), None))];
    var before := first + [Observed(Overlay(x.backend.observe(first), None))];
    var sent := before + [Commanded("ping", map[], x.backend.command(before, "ping", map[]))];
    sent + [Observed(Overlay(x.backend.observe(sent), None))]
  }

  lemma PingRun(x: Setup, plan: Plan)
    requires x.config == PING_CONFIG && x.flags == PING_FLAGS
    requires plan.steps == [PING_STEP] && plan.metadata.goals.Some?
    requires var log := PingLog(x); log[2].receipt.accepted && log[2].receipt.elapsed <= 1.0
    requires GoalsMet(plan, Overlay(x.backend.observe(PingLog(x)), Some("success")))
    ensures var c := After(x, plan, [], None, 3);
            && c.mode == Final(true) && c.plan == plan
            && c.log == PingLog(x) + [Observed(Overlay(x.backend.observe(PingLog(x)), Some("success")))]
  {
    hide GoalsMet, Overlay;
    var c0 := Start(x, plan, [], None);
    var s := Overlay(x.backend.observe([]), None);
    assert [] + [Observed(s)] == [Observed(s)];
    assert Lookup(x.Reg(), "ping") == Some(PING);
    var c1 := Advance(x, c0);
    assert c1.mode.Inner? && c1.mode.skill == PING && c1.index == 0 && c1.plan == plan && c1.last == None;
    assert ExpectedEffects(PING, map[], c1.mode.before) == map[];
    var c2 := Advance(x, c1);
    assert c2.mode.Outer? && c2.index == 1 && c2.plan == plan && c2.last == Some("success");
    assert c2.log == PingLog(x);
    assert After(x, plan, [], None, 3) == Advance(x, c2) by {
      assert Iterate(x, c0, 1) == Advance(x, Iterate(x, c0, 0));
      assert Iterate(x, c0, 2) == Advance(x, Iterate(x, c0, 1));
    }
  }

  /** The one command spends the fault, and that is all that happens. */
  lemma PingLeavesTheVoid(sensors: Sensors, field: string)
    ensures var m := Void(sensors, field);
            var log := PingLog(PingSetup(sensors, m));
            && log[2].receipt.accepted && log[2].receipt.elapsed <= 1.0
            && HiddenAfter(sensors, m, log) == m.(faults := map["ping" := []])
  {
    hide Observe, Overlay;
    var m := Void(sensors, field);
    var log := PingLog(PingSetup(sensors, m));
    HiddenOne(sensors, m, [], log[0]);
    HiddenOne(sensors, m, log[..1], log[1]);
    HiddenOne(sensors, m, log[..2], log[2]);
    HiddenOne(sensors, m, log[..3], log[3]);
    assert log[..0] == [] && log[..1] == [log[0]] && log[..2] == log[..1] + [log[1]];
    assert log[..3] == log[..2] + [log[2]] && log == log[..3] + [log[3]];
    assert Copy(m.world, map[]).vals == m.world.vals;
  }

  lemma VoidIsBelieved(sensors: Sensors, m: Hidden, field: string, stamp: Stamp)
    requires Deceivable(sensors, field) && m.world == Void(sensors, field).world
    requires m.attempts == Void(sensors, field).attempts
    ensures GoalMet(Overlay(Observe(sensors, m, stamp), Some("success")), (field, Illusion(sensors, field)))
  {
    hide Observe;
    var o := Observe(sensors, m, stamp);
    ObserveReads(sensors, m, stamp);
    assert field in sensors.model.refreshable ==> !Unavailable(sensors, m, field);
    var s := Overlay(o, Some("success"));
    assert Raw(s, field) == Some(Illusion(sensors, field));
    assert Contradicted(s, field) == Disputed(sensors, field);
  }

  lemma DeceivableIsDeceived(sensors: Sensors, field: string)
    requires Deceivable(sensors, field)
    ensures Deceives(PING_CONFIG, PING_FLAGS, sensors, Void(sensors, field), STILL, PLAIN_CAPS,
                     PingPlan(field, Illusion(sensors, field)), [], None, 3, field)
  {
    hide After, Observe, Overlay, GoalMet, HiddenAfter, PingLog;
    var m := Void(sensors, field);
    var plan := PingPlan(field, Illusion(sensors, field));
    var x := PingSetup(sensors, m);
    var log := PingLog(x);
    PingLeavesTheVoid(sensors, field);
    var h := HiddenAfter(sensors, m, log);
    VoidIsBelieved(sensors, h, field, At(0.0));
    var t := Overlay(x.backend.observe(log), Some("success"));
    assert GoalsMet(plan, t);
    PingRun(x, plan);
    HiddenOne(sensors, m, log, Observed(t));
    assert (field, Illusion(sensors, field)) in plan.metadata.goals.value;
  }

  /** A success report can be false about a field, in some run of some executor on some hidden
      state, if and only if the field is deceivable; a new executor without a past is enough. */
  lemma DeceptionExact(sensors: Sensors, field: string)
    ensures (exists config, flags, m, timing, caps, plan, log, last, n ::
               Deceives(config, flags, sensors, m, timing, caps, plan, log, last, n, field)) <==>
            Deceivable(sensors, field)
    ensures (exists config, flags, m, timing, caps, plan, n ::
               Deceives(config, flags, sensors, m, timing, caps, plan, [], None, n, field)) <==>
            Deceivable(sensors, field)
  {
    hide Deceives, Deceivable;
    if Deceivable(sensors, field) {
      DeceivableIsDeceived(sensors, field);
    } else if config, flags, m, timing, caps, plan, log, last, n :|
        Deceives(config, flags, sensors, m, timing, caps, plan, log, last, n, field) {
      DeceivedOnlyIfDeceivable(config, flags, sensors, m, timing, caps, plan, log, last, n, field);
    }
  }

  /** And the oracle's default tolerance is finer than the report's. For every field, target and
      true value: the report succeeds exactly when the gap is within its tolerance, and then
      the oracle agrees exactly when the gap is within its own. */
  lemma OracleIsFiner(field: string, height: real, target: real)
    ensures var sensors := Honest(map[]);
            var m := Showing(map[field := Float(height)], map[]);
            var c := After(PlainSetup(sensors, m), GoalPlan(field, Float(target)), [], None, 1);
            var gap := Abs(height - target);
            && c.mode == Final(gap <= 0.001)
            && (c.mode == Final(true) ==>
                  var world := HiddenAfter(sensors, m, c.log).world;
                  OracleAgrees(world, [(field, Float(target))], ORACLE_TOLERANCE) <==> gap <= 0.000001)
  {
    hide After, Observe;
    var sensors := Honest(map[]);
    var m := Showing(map[field := Float(height)], map[]);
    var plan := GoalPlan(field, Float(target));
    var x := PlainSetup(sensors, m);
    EmptyPlanRun(x, plan, None);
    var s := Overlay(x.backend.observe([]), None);
    var t := Overlay(x.backend.observe([Observed(s)]), None);
    LooksChangeNothing(sensors, m, Observed(s), Observed(t));
    ObserveReads(sensors, m, At(0.0));
    assert Raw(t, field) == Some(Float(height)) && Epistemic(t, field).status == Known;
    assert plan.metadata.goals.value == [(field, Float(target))];
    assert GoalsMet(plan, t) <==> GoalMet(t, (field, Float(target)));
  }
}
