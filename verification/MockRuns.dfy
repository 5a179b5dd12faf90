/** Runs that end: on the mock every one, and with the built-in skills exactly when no REGROUND can happen. */
module MockRuns {
  import opened Values
  import opened RobotState
  import opened Templates
  import opened Skills
  import opened Registry
  import opened Capability
  import opened Grounder
  import opened Executor
  import opened RunTermination
  import opened RunAdequacy
  import opened MockBackend
  import opened MockSensing
  import opened MockTruth
  import opened MockLift
  import opened MockMotion
  import opened MockArmFirst
  import opened DefaultSkills
  import opened GrounderSpec

  /** Whenever the guard looks, the clock is within every age limit of what it sees. */
  ghost predicate GuardsInTime(x: Setup) {
    forall log, last: Option<string> {:trigger Overlay(x.backend.observe(log), last)} ::
      var s := Overlay(x.backend.observe(log), last);
      Timely(x.Reg(), s, x.backend.clock(log + [Observed(s)], ForGuard))
  }

  /** The same values and the same defects; only the time may differ. */
  ghost predicate SameLook(a: State, b: State) {
    (forall f :: Raw(a, f) == Raw(b, f)) && a.active == b.active && a.stale == b.stale && a.conflicts == b.conflicts
  }

  lemma SameLookSameGuard(reg: Skillset, sk: Skill, step: Step, a: State, b: State, earlier: real, now: real)
    requires sk in reg && SameLook(a, b) && Timely(reg, a, earlier) && Timely(reg, b, now)
    ensures GuardAllows(sk, step, a, earlier) == GuardAllows(sk, step, b, now)
  {
    CheckStepExact(step.id, sk, a);
    CheckStepExact(step.id, sk, b);
    forall p | p in sk.preconditions
      ensures Evaluate(p, a, step.arguments, earlier).Satisfied() == Evaluate(p, b, step.arguments, now).Satisfied()
    {
      var f := Format(p.field, step.arguments);
      assert InAge(StampOf(a, f), p.maxAge, earlier) && InAge(StampOf(b, f), p.maxAge, now);
      assert Raw(a, f) == Raw(b, f);
    }
  }

  lemma SecondLookIsSame(sensors: Sensors, m: Hidden, s: Stamp, t: Stamp, last: Option<string>)
    ensures SameLook(Overlay(Observe(sensors, m, s), last), Overlay(Observe(sensors, m, t), last))
  {
    hide Observe;
    ObserveReads(sensors, m, s);
    ObserveReads(sensors, m, t);
  }

  /** Whatever is hidden, overridden, stale, contradictory, drifting or faulty: looking twice
      shows the same, so the guard says the same. */
  lemma MockIsSteady(config: Config, flags: Flags, sensors: Sensors, m: Hidden, timing: Timing, caps: Capabilities)
    requires GuardsInTime(MockSetup(config, flags, sensors, m, timing, caps))
    ensures Steady(MockSetup(config, flags, sensors, m, timing, caps))
  {
    hide Observe, HiddenAfter, Overlay, GuardAllows, Timely, SameLook;
    var x := MockSetup(config, flags, sensors, m, timing, caps);
    forall step, log, last
      ensures Allows(x, step, log + [Observed(Overlay(x.backend.observe(log), last))], last) ==
              Allows(x, step, log, last)
    {
      var s := Overlay(x.backend.observe(log), last);
      var more := log + [Observed(s)];
      var t := Overlay(x.backend.observe(more), last);
      HiddenOne(sensors, m, log, Observed(s));
      assert HiddenAfter(sensors, m, more) == HiddenAfter(sensors, m, log);
      SecondLookIsSame(sensors, HiddenAfter(sensors, m, log), At(timing.stamp(log)), At(timing.stamp(more)), last);
      match Lookup(x.Reg(), step.skill)
      case None =>
      case Some(sk) =>
        SameLookSameGuard(x.Reg(), sk, step, s, t, x.backend.clock(more, ForGuard),
                          x.backend.clock(more + [Observed(t)], ForGuard));
    }
  }

  /** That is so when the clock never runs further ahead of an observation than the shortest
      age limit, and the world carries no older dates of its own. */
  lemma PromptGuardsAreInTime(config: Config, flags: Flags, sensors: Sensors, m: Hidden, timing: Timing,
                              caps: Capabilities, limit: real)
    requires m.world.observedAt == map[]
    requires forall log, e :: timing.clock(log + [e], ForGuard) - timing.stamp(log) <= limit
    requires forall sk, p :: sk in config.reg && p in sk.preconditions && p.maxAge.Some? ==> limit <= p.maxAge.value
    ensures GuardsInTime(MockSetup(config, flags, sensors, m, timing, caps))
  {
    hide Observe, HiddenAfter;
    var x := MockSetup(config, flags, sensors, m, timing, caps);
    forall log, last: Option<string>
      ensures var s := Overlay(x.backend.observe(log), last);
              Timely(config.reg, s, x.backend.clock(log + [Observed(s)], ForGuard))
    {
      WorldKeepsStamps(sensors, m, log);
      ObserveStamps(sensors, HiddenAfter(sensors, m, log), At(timing.stamp(log)));
      var o := x.backend.observe(log);
      var s := Overlay(o, last);
      assert timing.clock(log + [Observed(s)], ForGuard) - timing.stamp(log) <= limit;
      forall f ensures StampOf(s, f) == At(timing.stamp(log)) {
        assert StampOf(o, f) == At(timing.stamp(log));
      }
    }
  }

  /** Every run on the mock ends, with any configuration and replanner and from any hidden
      state, if the guard reads its evidence in time. */
  lemma MockRunEnds(config: Config, flags: Flags, sensors: Sensors, m: Hidden, timing: Timing, caps: Capabilities,
                    plan: Plan, log: Log, last: Option<string>)
    returns (n: nat)
    requires GuardsInTime(MockSetup(config, flags, sensors, m, timing, caps))
    ensures After(MockSetup(config, flags, sensors, m, timing, caps), plan, log, last, n).mode.Final?
  {
    hide After;
    MockIsSteady(config, flags, sensors, m, timing, caps);
    n := SteadyRunEnds(MockSetup(config, flags, sensors, m, timing, caps), plan, log, last);
  }

  // ---- The default registry against any backend ---------------------------------------------------

  /** The lift may move. */
  const RAISABLE := State(
    map[LEFT_SAFE := Bool(true), RIGHT_SAFE := Bool(true), "lift_ready" := Bool(true)],
    {}, map[], {}, map[], At(0.0))

  lemma DefaultRetryIsForeseen()
    ensures ForeseenRetry(DEFAULTS, LiftStep(500.0), RAISABLE, 0.0)
  {
    hide Lookup, ValidArgs, PreconditionsHold, ExpectedEffects;
    var j := LiftJob(500.0, "left");
    LiftIsProper(500.0, "left");
    JobCallable(j);
    MotionHolds(j, RAISABLE, 0.0);
    LiftEffects(500.0, RAISABLE);
    CheckStepExact("s1", SET_LIFT, RAISABLE);
  }

  /** With the built-in skills every run of every plan ends, against every backend, if and only
      if the guard is off, recovery is off, or there is no retry. */
  lemma DefaultTermination(config: Config, flags: Flags)
    requires config.reg == DEFAULTS
    ensures (forall plan :: AlwaysEnds(config, flags, plan)) <==>
            !(flags.runtimeGuard && flags.allowRecovery && config.maxRetries > 0)
  {
    hide AlwaysEnds, Foreseen, RetryPasses;
    DefaultRetryIsForeseen();
    assert RetryPasses(DEFAULTS, LiftStep(500.0), RAISABLE, 0.0);
    ConfigurationDecidesTermination(config, flags);
  }
}
