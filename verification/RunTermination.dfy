/** When runs end, and a run that never does. */
module RunTermination {
  import opened Values
  import opened RobotState
  import opened Templates
  import opened Skills
  import opened Registry
  import opened Capability
  import opened Grounder
  import opened GrounderSpec
  import opened Executor
  import opened Transitions
  import opened RunSafety

  /** The guard's verdict on `step` when the state is refreshed after `log`. */
  predicate Allows(x: Setup, step: Step, log: Log, last: Option<string>) {
    match Lookup(x.Reg(), step.skill)
    case None => false
    case Some(sk) =>
      var s := Overlay(x.backend.observe(log), last);
      GuardAllows(sk, step, s, x.backend.clock(log + [Observed(s)], ForGuard))
  }

  /** Two refreshes with nothing between them give the same verdict. */
  ghost predicate Steady(x: Setup) {
    forall step, log, last {:trigger Allows(x, step, log, last)} ::
      Allows(x, step, log + [Observed(Overlay(x.backend.observe(log), last))], last) ==
      Allows(x, step, log, last)
  }

  /** A call of a skill that may be retried, and that the guard allows on `s`. */
  predicate RetryPasses(reg: Skillset, step: Step, s: State, now: real) {
    Callable(reg, step) &&
    var sk := Lookup(reg, step.skill).value;
    MayRetry(sk.policy) && GuardAllows(sk, step, s, now)
  }

  /** REGROUND can happen: the guard is on, recovery may retry, and the guard lets through, on
      some state, a call whose contract allows a retry. */
  ghost predicate MayReground(config: Config, flags: Flags) {
    && flags.runtimeGuard && flags.allowRecovery && config.maxRetries > 0
    && exists step, s, now :: RetryPasses(config.reg, step, s, now)
  }

  /** REGROUND cannot happen, or not without an end. */
  ghost predicate Settles(x: Setup) { Steady(x) || !MayReground(x.config, x.flags) }

  function GuardBudget(x: Setup): nat {
    if x.config.maxObservations > 2 then x.config.maxObservations else 2
  }

  predicate WithinBudgets(x: Setup, c: Control) {
    c.replans <= x.config.maxReplans && c.runtimeRepairs <= GuardBudget(x)
  }

  function StepsLeft(c: Control): nat {
    if c.index <= |c.plan.steps| then |c.plan.steps| - c.index else 0
  }

  /** Where in its attempts a run is; an outer head whose guard will refuse comes last. */
  function Phase(x: Setup, c: Control): nat {
    match c.mode
    case Outer => if DeniedNow(x, c) then 0 else x.config.maxRetries + 3
    case Inner(_, _, _, attempt) =>
      if attempt <= x.config.maxRetries + 1 then x.config.maxRetries + 2 - attempt else 0
    case Final(_) => 0
  }

  /** Lexicographic: replans left, guard-failure budget left, steps left, phase. */
  predicate Smaller(x: Setup, d: Control, c: Control)
    requires WithinBudgets(x, c) && WithinBudgets(x, d)
  {
    || d.replans > c.replans
    || (d.replans == c.replans && d.runtimeRepairs > c.runtimeRepairs)
    || (d.replans == c.replans && d.runtimeRepairs == c.runtimeRepairs &&
        (StepsLeft(d) < StepsLeft(c) || (StepsLeft(d) == StepsLeft(c) && Phase(x, d) < Phase(x, c))))
  }

  lemma DeniedIsRefused(x: Setup, c: Control)
    requires c.index < |c.plan.steps| && Knows(x.Reg(), c.plan.steps[c.index].skill)
    ensures DeniedNow(x, c) <==>
            x.flags.runtimeGuard && !Allows(x, c.plan.steps[c.index], c.log, c.last)
  {
  }

  lemma OuterShrinks(x: Setup, base: nat, c: Control, d: Control)
    requires AtHead(x, base, c) && WithinBudgets(x, c) && c.mode.Outer? && FromOuter(x, c, d)
    ensures d.mode.Final? || (WithinBudgets(x, d) && Smaller(x, d, c))
  {
    if Entered(x, c, d) {
      assert !DeniedNow(x, c);
    } else if Reobserved(x, c, d) {
    } else if Resuffixed(x, c, d) {
    }
  }

  /** After REGROUND the next refresh, under the steadiness assumption, is refused again. */
  lemma RegroundStaysDenied(x: Setup, base: nat, c: Control, d: Control)
    requires AtHead(x, base, c) && Steady(x) && Regrounded(x, c, d)
    ensures DeniedNow(x, d)
  {
    var e := Attempted(x, c);
    AttemptCounts(x, c);
    var s := Look(x, e);
    assert !Allows(x, c.mode.step, e.log, e.last);
    assert Allows(x, c.mode.step, e.log + [Observed(s)], e.last) == Allows(x, c.mode.step, e.log, e.last);
    DeniedIsRefused(x, d);
  }

  lemma RegroundedMeansMayReground(x: Setup, base: nat, c: Control, d: Control)
    requires AtHead(x, base, c) && Regrounded(x, c, d)
    ensures MayReground(x.config, x.flags)
  {
    assert RetryPasses(x.Reg(), c.mode.step, c.mode.before, x.backend.clock(c.log, ForGuard));
  }

  lemma InnerShrinks(x: Setup, base: nat, c: Control, d: Control)
    requires AtHead(x, base, c) && WithinBudgets(x, c) && c.mode.Inner? && FromInner(x, c, d)
    requires Settles(x)
    ensures d.mode.Final? || (WithinBudgets(x, d) && Smaller(x, d, c))
  {
    hide Steady, FromReplanner, MayReground;
    AttemptCounts(x, c);
    if Progressed(x, c, d) {
    } else if Retried(x, c, d) {
    } else if Regrounded(x, c, d) {
      RegroundedMeansMayReground(x, base, c, d);
      RegroundStaysDenied(x, base, c, d);
    } else if Replanned(x, c, d) {
    }
  }

  lemma {:induction false} IterateShift(x: Setup, c: Control, n: nat)
    ensures Iterate(x, Advance(x, c), n) == Iterate(x, c, n + 1)
  {
    hide Advance;
    if n > 0 { IterateShift(x, c, n - 1); }
  }

  lemma AdvanceShrinks(x: Setup, base: nat, c: Control)
    requires AtHead(x, base, c) && WithinBudgets(x, c) && Settles(x) && !c.mode.Final?
    ensures var d := Advance(x, c);
            AtHead(x, base, d) && (d.mode.Final? || (WithinBudgets(x, d) && Smaller(x, d, c)))
  {
    hide Advance, AtHead, Settles, FromOuter, FromInner, Smaller;
    AdvanceKinds(x, c);
    AtHeadKept(x, base, c);
    if c.mode.Outer? {
      OuterShrinks(x, base, c, Advance(x, c));
    } else {
      InnerShrinks(x, base, c, Advance(x, c));
    }
  }

  lemma {:induction false} Ends(x: Setup, base: nat, c: Control) returns (n: nat)
    requires AtHead(x, base, c) && WithinBudgets(x, c) && Settles(x)
    ensures Iterate(x, c, n).mode.Final?
    decreases x.config.maxReplans - c.replans, GuardBudget(x) - c.runtimeRepairs, StepsLeft(c), Phase(x, c)
  {
    hide Advance, AtHead, Settles, DeniedNow;
    if c.mode.Final? {
      n := 0;
    } else {
      var d := Advance(x, c);
      AdvanceShrinks(x, base, c);
      if d.mode.Final? {
        IterateShift(x, c, 0);
        n := 1;
      } else {
        var m := Ends(x, base, d);
        IterateShift(x, c, m);
        n := m + 1;
      }
    }
  }

  lemma SettledRunEnds(x: Setup, plan: Plan, log: Log, last: Option<string>) returns (n: nat)
    requires Settles(x)
    ensures After(x, plan, log, last, n).mode.Final?
  {
    hide Start, Settles, DeniedNow;
    StartFresh(x, plan, log, last);
    n := Ends(x, |log|, Start(x, plan, log, last));
  }

  /** Every run terminates, against any backend and with any replanner, if two refreshes
      with no command or acquisition between them give the same guard verdict. */
  lemma SteadyRunEnds(x: Setup, plan: Plan, log: Log, last: Option<string>) returns (n: nat)
    requires Steady(x)
    ensures After(x, plan, log, last, n).mode.Final?
  {
    n := SettledRunEnds(x, plan, log, last);
  }

  /** And without any assumption on the backend if the configuration rules REGROUND out. */
  lemma RunWithoutRegroundEnds(x: Setup, plan: Plan, log: Log, last: Option<string>) returns (n: nat)
    requires !MayReground(x.config, x.flags)
    ensures After(x, plan, log, last, n).mode.Final?
  {
    n := SettledRunEnds(x, plan, log, last);
  }

  // ---- Otherwise some backend keeps the run going for ever ----------------------------------------

  /** The second observation after a command. */
  predicate Dropped(log: Log) {
    |log| >= 2 && log[|log| - 1].Observed? && log[|log| - 2].Commanded?
  }

  function Alarmed(s: State): State { Copy(s, map[EMERGENCY := Some(Bool(true))]) }

  /** Shows `s`, but an emergency stop in every second observation after a command, and rejects
      every command. */
  function Flicker(s: State, now: real, caps: Capabilities): Backend {
    Backend((log: Log) => if Dropped(log) then Alarmed(s) else s,
            (log: Log, fields: set<string>) => s,
            (log: Log, skill: string, args: Args) => Receipt(false, false, 0.0),
            (log: Log, reading: Reading) => now,
            caps)
  }

  /** The first step is a call of a retryable skill that the guard allows on `s`, a state that
      already reports a last result. */
  predicate Retryable(reg: Skillset, plan: Plan, s: State, now: real) {
    && plan.steps != [] && Callable(reg, plan.steps[0])
    && var sk := Lookup(reg, plan.steps[0].skill).value;
       MayRetry(sk.policy) && GuardAllows(sk, plan.steps[0], s, now) && Raw(s, LAST_RESULT).Some?
  }

  /** Preflight, if there is one, accepts the plan on `s`. */
  predicate Launchable(x: Setup, plan: Plan, s: State, now: real) {
    x.flags.groundPlan ==> Ground(x.Reg(), x.Caps(), now, WithGoalState(x.Reg(), plan, s), s).valid
  }

  /** A flickering run: the plan, at its first step. */
  predicate OnFirst(x: Setup, plan: Plan, c: Control) { c.plan.steps == plan.steps && c.index == 0 }

  /** Between rounds: the last observation was not a dropped one. */
  predicate Idle(x: Setup, plan: Plan, c: Control) {
    && c.mode.Outer? && OnFirst(x, plan, c)
    && |c.log| > 0 && c.log[|c.log| - 1].Observed? && !Dropped(c.log)
  }

  /** About to send for the first time in a round. */
  predicate Poised(x: Setup, plan: Plan, c: Control) {
    && plan.steps != [] && c.mode.Inner? && OnFirst(x, plan, c) && c.mode.step == plan.steps[0]
    && Lookup(x.Reg(), c.mode.step.skill) == Some(c.mode.skill) && c.mode.attempt == 1
  }

  lemma AlarmStops(sk: Skill, step: Step, s: State, now: real)
    ensures !GuardAllows(sk, step, Alarmed(s), now)
  {
    CheckStepExact(step.id, sk, Alarmed(s));
  }

  lemma FlickerEnters(x: Setup, plan: Plan, s: State, now: real, c: Control)
    requires x.backend == Flicker(s, now, x.backend.capabilities)
    requires Retryable(x.Reg(), plan, s, now) && Idle(x, plan, c)
    ensures Poised(x, plan, Advance(x, c))
  {
    hide GuardAllows, ValidArgs, GuardFailed;
    assert Look(x, c) == s;
  }

  lemma FlickerFails(x: Setup, plan: Plan, s: State, now: real, c: Control)
    requires x.backend == Flicker(s, now, x.backend.capabilities) && Poised(x, plan, c)
    requires Raw(s, LAST_RESULT).Some?
    ensures var e := Attempted(x, c);
            && !Achieved(x, c) && Dropped(e.log) && Look(x, e) == Alarmed(s)
            && e.plan == c.plan && e.index == c.index
  {
    hide OutcomeVerified, GuardAllows;
    var e := Attempted(x, c);
    assert e.log[|e.log| - 2].Commanded? && Dropped(e.log);
  }

  /** The command is rejected, and the observation before the retry regrounds the step. */
  lemma FlickerRegrounds(x: Setup, plan: Plan, s: State, now: real, c: Control)
    requires x.backend == Flicker(s, now, x.backend.capabilities)
    requires x.flags.runtimeGuard && x.flags.allowRecovery && x.config.maxRetries > 0
    requires Retryable(x.Reg(), plan, s, now) && Poised(x, plan, c)
    ensures Idle(x, plan, Advance(x, c))
  {
    hide GuardAllows, ValidArgs, Attempted, TryReplan, Look;
    var e := Attempted(x, c);
    FlickerFails(x, plan, s, now, c);
    AlarmStops(c.mode.skill, c.mode.step, s, now);
    assert Look(x, Decided(e, LOCAL_RETRY)) == Look(x, e) by { DecisionsAreNotSeen(x, e, LOCAL_RETRY); }
    var d := Advance(x, c);
    assert d.log == e.log + [Observed(Alarmed(s))];
  }

  lemma DecisionsAreNotSeen(x: Setup, c: Control, d: Decision)
    ensures Look(x, Decided(c, d)) == Look(x, c)
  {
  }

  lemma {:induction false} FlickerKeepsGoing(x: Setup, plan: Plan, s: State, now: real, c: Control, n: nat)
    requires x.backend == Flicker(s, now, x.backend.capabilities)
    requires x.flags.runtimeGuard && x.flags.allowRecovery && x.config.maxRetries > 0
    requires Retryable(x.Reg(), plan, s, now) && Idle(x, plan, c)
    ensures !Iterate(x, c, n).mode.Final?
    decreases n
  {
    hide Advance, Retryable;
    FlickerEnters(x, plan, s, now, c);
    if n == 1 {
      IterateShift(x, c, 0);
    } else if n >= 2 {
      FlickerRegrounds(x, plan, s, now, Advance(x, c));
      FlickerKeepsGoing(x, plan, s, now, Advance(x, Advance(x, c)), n - 2);
      IterateShift(x, Advance(x, c), n - 2);
      IterateShift(x, c, n - 1);
    }
  }

  /** Where REGROUND can happen termination is false: for every configuration, and every plan
      that launches on a state whose guard allows its first, retryable step, this backend
      keeps the executor dispatching for ever, because REGROUND starts the attempt count
      afresh. */
  lemma FlickerNeverEnds(x: Setup, plan: Plan, s: State, now: real, n: nat)
    requires x.backend == Flicker(s, now, x.backend.capabilities)
    requires x.flags.runtimeGuard && x.flags.allowRecovery && x.config.maxRetries > 0
    requires Retryable(x.Reg(), plan, s, now) && Launchable(x, plan, s, now)
    ensures !After(x, plan, [], None, n).mode.Final?
  {
    hide Ground, GoalFold, Advance, Retryable;
    var c := Start(x, plan, [], None);
    assert Look(x, Begin(plan, [], None)) == s;
    assert Idle(x, plan, c);
    FlickerKeepsGoing(x, plan, s, now, c, n);
  }

  // ---- Exactly when every run ends ---------------------------------------------------------------------

  ghost predicate RunEnds(x: Setup, plan: Plan, log: Log, last: Option<string>) {
    exists n :: After(x, plan, log, last, n).mode.Final?
  }

  /** Whatever the backend does. */
  ghost predicate AlwaysEnds(config: Config, flags: Flags, plan: Plan) {
    forall backend, log, last :: RunEnds(Setup(config, flags, backend), plan, log, last)
  }

  lemma NoRegroundAlwaysEnds(config: Config, flags: Flags, plan: Plan)
    requires !MayReground(config, flags)
    ensures AlwaysEnds(config, flags, plan)
  {
    hide After;
    forall backend, log, last ensures RunEnds(Setup(config, flags, backend), plan, log, last) {
      var n := RunWithoutRegroundEnds(Setup(config, flags, backend), plan, log, last);
    }
  }

  /** For a plan that can be launched on a retryable first step: every run of it ends, against
      every backend, if and only if the guard is off, recovery is off, or there is no retry. */
  lemma TerminationExact(config: Config, flags: Flags, caps: Capabilities, plan: Plan, s: State, now: real)
    requires Retryable(config.reg, plan, s, now)
    requires Launchable(Setup(config, flags, Flicker(s, now, caps)), plan, s, now)
    ensures AlwaysEnds(config, flags, plan) <==>
            !(flags.runtimeGuard && flags.allowRecovery && config.maxRetries > 0)
  {
    hide After, Retryable, Launchable;
    if flags.runtimeGuard && flags.allowRecovery && config.maxRetries > 0 {
      var x := Setup(config, flags, Flicker(s, now, caps));
      forall n ensures !After(x, plan, [], None, n).mode.Final? { FlickerNeverEnds(x, plan, s, now, n); }
      assert !RunEnds(x, plan, [], None);
    } else {
      NoRegroundAlwaysEnds(config, flags, plan);
    }
  }

  // ---- The same for all plans at once ----------------------------------------------------------------------

  /** Every effect of the call has a value. */
  predicate Foreseen(reg: Skillset, step: Step, s: State) {
    Knows(reg, step.skill) &&
    var effects := ExpectedEffects(Lookup(reg, step.skill).value, step.arguments, s);
    forall k :: k in effects ==> effects[k].Some?
  }

  /** If the guard lets through any call that may be retried, it does so for one that preflight
      can predict. */
  ghost predicate RetryIsForeseen(reg: Skillset) {
    (exists step, s, now :: RetryPasses(reg, step, s, now)) ==>
      exists step, s, now :: ForeseenRetry(reg, step, s, now)
  }

  predicate ForeseenRetry(reg: Skillset, step: Step, s: State, now: real) {
    RetryPasses(reg, step, s, now) && Foreseen(reg, step, s)
  }

  /** The state as it is shown after a failure. */
  function AfterFailure(s: State): State { Overlay(s, Some("failure")) }

  lemma OverlayPasses(reg: Skillset, step: Step, s: State, now: real)
    requires RetryPasses(reg, step, s, now)
    ensures RetryPasses(reg, step, AfterFailure(s), now) && Raw(AfterFailure(s), LAST_RESULT).Some?
  {
    var sk := Lookup(reg, step.skill).value;
    var t := AfterFailure(s);
    CheckStepExact(step.id, sk, s);
    CheckStepExact(step.id, sk, t);
    forall p | p in sk.preconditions ensures Evaluate(p, t, step.arguments, now).Satisfied() {
      assert Evaluate(p, s, step.arguments, now).Satisfied();
    }
  }

  lemma OverlayForesees(reg: Skillset, step: Step, s: State)
    requires Foreseen(reg, step, s)
    ensures Foreseen(reg, step, AfterFailure(s))
  {
    var sk := Lookup(reg, step.skill).value;
    var t := AfterFailure(s);
    EffectsDictionary(sk.effects, step.arguments, s);
    EffectsDictionary(sk.effects, step.arguments, t);
    var effects := ExpectedEffects(sk, step.arguments, t);
    forall k | k in effects ensures effects[k].Some? {
      assert k in EffectKeys(sk, step.arguments);
      assert ExpectedEffects(sk, step.arguments, s)[k].Some?;
    }
  }

  const OPEN := Capabilities(None, None, {}, [])

  function Alone(step: Step): Plan {
    Plan("", [step.(expectedEffect := [])], "", 0, Metadata(None, false, {}))
  }

  lemma AloneIsGrounded(reg: Skillset, caps: Option<Capabilities>, step: Step, s: State, now: real)
    requires caps.Some? ==> caps.value == OPEN
    requires RetryPasses(reg, step, s, now) && Foreseen(reg, step, s)
    ensures StepGrounded(reg, caps, now, step.(expectedEffect := []), s)
  {
    hide ValidArgs, EffectsOf, PreconditionsHold;
    CheckStepExact(step.id, Lookup(reg, step.skill).value, s);
  }

  lemma AloneIsLaunchable(x: Setup, step: Step, s: State, now: real)
    requires x.backend.capabilities == OPEN
    requires RetryPasses(x.Reg(), step, s, now)
    requires x.flags.groundPlan ==> Foreseen(x.Reg(), step, s)
    ensures Launchable(x, Alone(step), s, now)
  {
    hide RetryPasses, Foreseen, StepGrounded, GoalFold, Ground;
    if x.flags.groundPlan {
      var plan := WithGoalState(x.Reg(), Alone(step), s);
      AloneIsGrounded(x.Reg(), x.Caps(), step, s, now);
      assert SimAt(x.Reg(), plan.steps, s, 0) == s;
      GroundExact(x.Reg(), x.Caps(), now, plan, s);
    }
  }

  lemma AloneKeepsGoing(config: Config, flags: Flags, step: Step, s: State, now: real)
    requires flags.runtimeGuard && flags.allowRecovery && config.maxRetries > 0
    requires RetryPasses(config.reg, step, s, now) && (flags.groundPlan ==> Foreseen(config.reg, step, s))
    ensures !AlwaysEnds(config, flags, Alone(step))
  {
    hide AlwaysEnds, RetryPasses, Foreseen, Launchable, GuardAllows;
    var t := AfterFailure(s);
    OverlayPasses(config.reg, step, s, now);
    if flags.groundPlan { OverlayForesees(config.reg, step, s); }
    AloneIsLaunchable(Setup(config, flags, Flicker(t, now, OPEN)), step, t, now);
    assert Retryable(config.reg, Alone(step), t, now) by { AloneIsRetryable(config.reg, step, t, now); }
    TerminationExact(config, flags, OPEN, Alone(step), t, now);
  }

  lemma AloneIsRetryable(reg: Skillset, step: Step, s: State, now: real)
    requires RetryPasses(reg, step, s, now) && Raw(s, LAST_RESULT).Some?
    ensures Retryable(reg, Alone(step), s, now)
  {
  }

  /** The configuration alone decides: every run of every plan ends, against every backend, if
      and only if REGROUND cannot happen. Without preflight grounding nothing else is asked;
      with it, one of the calls that may be retried must have predictable effects. */
  lemma ConfigurationDecidesTermination(config: Config, flags: Flags)
    requires flags.groundPlan ==> RetryIsForeseen(config.reg)
    ensures (forall plan :: AlwaysEnds(config, flags, plan)) <==> !MayReground(config, flags)
  {
    hide AlwaysEnds, RetryPasses, Foreseen;
    if MayReground(config, flags) {
      var step, s, now :| RetryPasses(config.reg, step, s, now) &&
                          (flags.groundPlan ==> ForeseenRetry(config.reg, step, s, now));
      AloneKeepsGoing(config, flags, step, s, now);
    } else {
      forall plan ensures AlwaysEnds(config, flags, plan) { NoRegroundAlwaysEnds(config, flags, plan); }
    }
  }

  predicate OnlyAssigns(sk: Skill) { forall e :: e in sk.effects ==> e.operation == Assign }

  /** Nothing is asked with preflight grounding either if the skills that may be retried only
      assign. */
  lemma AssignmentsAreForeseen(reg: Skillset)
    requires forall sk :: sk in reg ==> WellFormed(sk)
    requires forall sk :: sk in reg && MayRetry(sk.policy) ==> OnlyAssigns(sk)
    ensures RetryIsForeseen(reg)
  {
    hide GuardAllows;
    if step, s, now :| RetryPasses(reg, step, s, now) {
      var sk := Lookup(reg, step.skill).value;
      EffectsDictionary(sk.effects, step.arguments, s);
      var effects := ExpectedEffects(sk, step.arguments, s);
      forall k | k in effects ensures effects[k].Some? {
        var e := SpecFor(sk.effects, step.arguments, k).value;
        ValidCallsResolve(sk, step.arguments);
        assert Operand(e, step.arguments).Some?;
      }
      assert ForeseenRetry(reg, step, s, now);
    }
  }
}
