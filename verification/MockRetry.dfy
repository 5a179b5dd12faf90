/** Exact retry behaviour on the mock. */
module MockRetry {
  import opened Values
  import opened RobotState
  import opened Templates
  import opened Skills
  import opened Registry
  import opened Capability
  import opened Grounder
  import opened GrounderSpec
  import opened Executor
  import opened Transitions
  import opened RunAdequacy
  import opened MockBackend
  import opened MockSensing
  import opened MockTruth

  // ---- Observations that differ only in time and in the executor's own last result -------------

  ghost predicate SameEvidence(a: State, b: State) {
    && (forall f :: f != LAST_RESULT ==> Raw(a, f) == Raw(b, f))
    && a.active == b.active && a.stale == b.stale && a.conflicts == b.conflicts
  }

  /** The contract does not read or write the executor's own last result. */
  predicate OwnFields(sk: Skill, args: Args) {
    && (forall p :: p in sk.preconditions ==> Format(p.field, args) != LAST_RESULT)
    && (forall e :: e in sk.effects ==> Format(e.field, args) != LAST_RESULT)
  }

  /** Two states of the mock that its sensors cannot tell apart. */
  predicate SameWorld(m: Hidden, h: Hidden) { h.world == m.world && h.attempts == m.attempts }

  lemma SameSensorChanges(sensors: Sensors, m: Hidden, h: Hidden)
    requires SameWorld(m, h)
    ensures SensorChanges(sensors, m) == SensorChanges(sensors, h)
    ensures forall n :: Unavailable(sensors, m, n) == Unavailable(sensors, h, n)
  {
  }

  lemma OverlayReads(s: State, last: Option<string>)
    ensures forall f :: f != LAST_RESULT ==> Raw(Overlay(s, last), f) == Raw(s, f)
    ensures Overlay(s, last) == s.(vals := Overlay(s, last).vals)
  {
  }

  lemma SameWorldSameEvidence(sensors: Sensors, m: Hidden, h: Hidden, s: Stamp, t: Stamp, last: Option<string>)
    requires SameWorld(m, h)
    ensures SameEvidence(Observe(sensors, m, s), Overlay(Observe(sensors, h, t), last))
  {
    hide Observe, SensorChanges, Unavailable, Overlay, Raw;
    SameSensorChanges(sensors, m, h);
    ObserveReads(sensors, m, s);
    ObserveReads(sensors, h, t);
    OverlayReads(Observe(sensors, h, t), last);
  }

  lemma SameGuard(reg: Skillset, sk: Skill, step: Step, a: State, b: State, earlier: real, now: real)
    requires SameEvidence(a, b) && OwnFields(sk, step.arguments) && sk in reg && Timely(reg, b, now)
    requires PreconditionsHold(sk, a, step.arguments, earlier) && Unobstructed(sk, a)
    ensures GuardAllows(sk, step, b, now)
  {
    forall p | p in sk.preconditions ensures Evaluate(p, b, step.arguments, now).Satisfied() {
      var f := Format(p.field, step.arguments);
      assert Evaluate(p, a, step.arguments, earlier).Satisfied();
      assert InAge(StampOf(b, f), p.maxAge, now);
      assert Raw(a, f) == Raw(b, f);
    }
    CheckStepExact(step.id, sk, b);
  }

  lemma SameEffects(sk: Skill, args: Args, a: State, b: State)
    requires SameEvidence(a, b) && OwnFields(sk, args)
    ensures ExpectedEffects(sk, args, a) == ExpectedEffects(sk, args, b)
  {
    EffectsDictionary(sk.effects, args, a);
    EffectsDictionary(sk.effects, args, b);
    var p, q := ExpectedEffects(sk, args, a), ExpectedEffects(sk, args, b);
    forall k | k in p ensures k in q && q[k] == p[k] {
      var e := SpecFor(sk.effects, args, k).value;
      assert Raw(a, Format(e.field, args)) == Raw(b, Format(e.field, args));
      assert p[k] == ExpectedValue(e, args, a) && q[k] == ExpectedValue(e, args, b);
    }
    assert p.Keys == q.Keys;
  }

  lemma SameVerdict(sk: Skill, args: Args, before: State, after: State, before': State, after': State)
    requires SameEvidence(before, before') && SameEvidence(after, after') && OwnFields(sk, args)
    ensures OutcomeVerified(sk, args, before, after) == OutcomeVerified(sk, args, before', after')
  {
    SameEffects(sk, args, before, before');
    var effects := ExpectedEffects(sk, args, before);
    EffectsDictionary(sk.effects, args, before);
    forall k | k in effects
      ensures FieldVerified(sk, args, after, k, effects[k]) == FieldVerified(sk, args, after', k, effects[k])
    {
      assert k != LAST_RESULT;
      assert Raw(after, k) == Raw(after', k);
    }
  }

  lemma SameGoals(plan: Plan, a: State, b: State)
    requires SameEvidence(a, b) && OwnGoals(plan) && GoalsMet(plan, a)
    ensures GoalsMet(plan, b)
  {
    if plan.metadata.goals.Some? {
      forall g | g in plan.metadata.goals.value ensures GoalMet(b, g) {
        assert GoalMet(a, g) && Raw(a, g.0) == Raw(b, g.0);
      }
    }
  }

  lemma CopyNothing(s: State)
    ensures Copy(s, map[]) == s
  {
    assert Copy(s, map[]).vals == s.vals;
  }

  // ---- The experiment ------------------------------------------------------------------------------

  /** An executor on a mock, and one step of a plan. */
  datatype Bench = Bench(config: Config, flags: Flags, sensors: Sensors, hidden: Hidden, timing: Timing,
                         caps: Capabilities, step: Step, skill: Skill)
  {
    function Machine(): Setup { MockSetup(config, flags, sensors, hidden, timing, caps) }

    function Faults(): seq<Fault> {
      if skill.name in hidden.faults then hidden.faults[skill.name] else []
    }

    /** The mock when `j` of the queued faults have struck. */
    function Struck(j: nat): Hidden
      requires j <= |Faults()|
    {
      if skill.name in hidden.faults then
        hidden.(faults := hidden.faults[skill.name := Faults()[j..]])
      else hidden
    }

    /** The mock after the command has gone through. */
    function Done(): Hidden {
      Struck(|Faults()|).(world := Transition(sensors, hidden.world, skill.name, step.arguments).1)
    }

    function Seen(m: Hidden): State { Observe(sensors, m, At(0.0)) }
  }

  /** Retries allowed, nothing else to recover with, drift-free queued faults only. */
  predicate Arranged(b: Bench) {
    && b.flags.verifyOutcomes && b.flags.allowRecovery && b.config.replanner.None?
    && Lookup(b.config.reg, b.step.skill) == Some(b.skill) && ValidArgs(b.skill, b.step.arguments)
    && MayRetry(b.skill.policy)
    && OwnFields(b.skill, b.step.arguments)
    && (forall f :: f in b.Faults() ==> f.drift == map[])
    && b.skill.name !in b.hidden.permanent
  }

  /** Guard readings are in age and commands in time. */
  ghost predicate InTime(b: Bench) {
    var x := b.Machine();
    && (forall log, last: Option<string> {:trigger Overlay(x.backend.observe(log), last)} ::
          var s := Overlay(x.backend.observe(log), last);
          Timely(b.config.reg, s, x.backend.clock(log + [Observed(s)], ForGuard)))
    && (forall log :: b.timing.elapsed(log) <= b.skill.timeout)
  }

  /** The effect is not there yet, and a command that goes through brings it and the goals. */
  predicate Effective(b: Bench, plan: Plan) {
    var args := b.step.arguments;
    && !OutcomeVerified(b.skill, args, b.Seen(b.hidden), b.Seen(b.hidden))
    && Transition(b.sensors, b.hidden.world, b.skill.name, args).0
    && OutcomeVerified(b.skill, args, b.Seen(b.hidden), b.Seen(b.Done()))
    && GoalsMet(plan, b.Seen(b.Done())) && OwnGoals(plan)
  }

  /** The guard's conditions, as the mock shows them at some earlier time. */
  predicate Passes(b: Bench, s: State, earlier: real) {
    PreconditionsHold(b.skill, s, b.step.arguments, earlier) && Unobstructed(b.skill, s)
  }

  // ---- One attempt -----------------------------------------------------------------------------------

  /** At the head of attempt `j + 1`, after `j` faults have struck. */
  ghost predicate Trying(b: Bench, plan: Plan, j: nat, c: Control) {
    && c.mode.Inner? && c.mode.step == b.step && c.mode.skill == b.skill && c.mode.attempt == j + 1
    && c.plan == plan && plan.steps == [b.step] && c.index == 0 && c.replans == 0
    && |c.results| == j <= |b.Faults()|
    && HiddenAfter(b.sensors, b.hidden, c.log) == b.Struck(j)
    && SameEvidence(b.Seen(b.hidden), c.mode.before)
  }

  /** A look, at any time, at a mock whose world is that of `m`. */
  lemma LooksLike(b: Bench, m: Hidden, c: Control)
    requires SameWorld(m, HiddenAfter(b.sensors, b.hidden, c.log))
    ensures SameEvidence(b.Seen(m), Look(b.Machine(), c))
  {
    SameWorldSameEvidence(b.sensors, m, HiddenAfter(b.sensors, b.hidden, c.log), At(0.0),
                          At(b.timing.stamp(c.log)), c.last);
  }

  lemma NextStrike(b: Bench, j: nat)
    requires Arranged(b) && j < |b.Faults()|
    ensures NextFault(b.Struck(j), b.skill.name) == Some(b.Faults()[j])
    ensures Command(b.sensors, b.Struck(j), b.skill.name, b.step.arguments).2 == b.Struck(j + 1)
  {
    CopyNothing(b.hidden.world);
    assert b.Faults()[j..][1..] == b.Faults()[j + 1..];
    assert b.Faults()[j] in b.Faults();
    var m := PopFault(b.Struck(j), b.skill.name);
    assert m.faults == b.Struck(j + 1).faults;
  }

  lemma NoStrikeLeft(b: Bench)
    requires Arranged(b)
    ensures var k := |b.Faults()|;
            && NextFault(b.Struck(k), b.skill.name) == None
            && Command(b.sensors, b.Struck(k), b.skill.name, b.step.arguments) ==
               (Transition(b.sensors, b.hidden.world, b.skill.name, b.step.arguments).0, false, b.Done())
  {
    assert b.Faults()[|b.Faults()|..] == [];
    assert PopFault(b.Struck(|b.Faults()|), b.skill.name) == b.Struck(|b.Faults()|);
  }

  /** While a fault strikes, the attempt fails and the world stays as it was. */
  lemma StruckAttempt(b: Bench, plan: Plan, j: nat, c: Control)
    requires Arranged(b) && Effective(b, plan) && Trying(b, plan, j, c) && j < |b.Faults()|
    ensures var x := b.Machine();
            var e := Attempted(x, c);
            && !Achieved(x, c)
            && HiddenAfter(b.sensors, b.hidden, e.log) == b.Struck(j + 1)
            && SameWork(c.(results := e.results, last := e.last), e)
            && |e.results| == j + 1
  {
    hide Observe, OutcomeVerified, GoalsMet;
    var x := b.Machine();
    var args := b.step.arguments;
    NextStrike(b, j);
    var receipt := x.backend.command(c.log, b.skill.name, args);
    var sent := Commanded(b.skill.name, args, receipt);
    HiddenOne(b.sensors, b.hidden, c.log, sent);
    var c1 := c.(log := c.log + [sent]);
    LooksLike(b, b.hidden, c1);
    SameVerdict(b.skill, args, b.Seen(b.hidden), b.Seen(b.hidden), c.mode.before, Look(x, c1));
    HiddenOne(b.sensors, b.hidden, c1.log, Observed(Look(x, c1)));
  }

  /** When the faults are used up, the attempt succeeds. */
  lemma CleanAttempt(b: Bench, plan: Plan, c: Control)
    requires Arranged(b) && Effective(b, plan) && InTime(b) && Trying(b, plan, |b.Faults()|, c)
    ensures var x := b.Machine();
            var e := Attempted(x, c);
            && Achieved(x, c)
            && HiddenAfter(b.sensors, b.hidden, e.log) == b.Done()
            && SameWork(c.(results := e.results, last := e.last), e)
            && |e.results| == |b.Faults()| + 1
  {
    hide Observe, OutcomeVerified, GoalsMet, Timely;
    var x := b.Machine();
    var args := b.step.arguments;
    NoStrikeLeft(b);
    var receipt := x.backend.command(c.log, b.skill.name, args);
    assert receipt.accepted && receipt.elapsed <= b.skill.timeout by {
      assert b.timing.elapsed(c.log) <= b.skill.timeout;
    }
    var sent := Commanded(b.skill.name, args, receipt);
    HiddenOne(b.sensors, b.hidden, c.log, sent);
    var c1 := c.(log := c.log + [sent]);
    LooksLike(b, b.Done(), c1);
    SameVerdict(b.skill, args, b.Seen(b.hidden), b.Seen(b.Done()), c.mode.before, Look(x, c1));
    HiddenOne(b.sensors, b.hidden, c1.log, Observed(Look(x, c1)));
  }

  lemma GuardPassesAgain(b: Bench, s: State, earlier: real, c: Control)
    requires Arranged(b) && InTime(b) && Passes(b, s, earlier)
    requires SameEvidence(b.Seen(b.hidden), s)
    requires SameWorld(b.hidden, HiddenAfter(b.sensors, b.hidden, c.log))
    ensures var x := b.Machine();
            GuardAllows(b.skill, b.step, Look(x, c), x.backend.clock(Saw(c, Look(x, c)).log, ForGuard))
  {
    hide Observe;
    var x := b.Machine();
    LooksLike(b, b.hidden, c);
    var t := Look(x, c);
    assert SameEvidence(s, t);
    assert Timely(b.config.reg, t, x.backend.clock(c.log + [Observed(t)], ForGuard)) by {
      assert t == Overlay(x.backend.observe(c.log), c.last);
    }
    SameGuard(b.config.reg, b.skill, b.step, s, t, earlier, x.backend.clock(c.log + [Observed(t)], ForGuard));
  }

  lemma TriesAgain(b: Bench, plan: Plan, j: nat, c: Control, s: State, earlier: real)
    requires Arranged(b) && Effective(b, plan) && InTime(b) && Passes(b, s, earlier)
    requires SameEvidence(b.Seen(b.hidden), s)
    requires Trying(b, plan, j, c) && j < |b.Faults()| && j < b.config.maxRetries
    ensures Trying(b, plan, j + 1, Advance(b.Machine(), c))
  {
    hide Observe, OutcomeVerified, GoalsMet, InTime, Effective, Passes, GuardAllows, HiddenAfter, Attempted,
         SameEvidence;
    var x := b.Machine();
    StruckAttempt(b, plan, j, c);
    var e := Attempted(x, c);
    GuardPassesAgain(b, s, earlier, e);
    LooksLike(b, b.hidden, e);
    HiddenOne(b.sensors, b.hidden, e.log, Observed(Look(x, e)));
    InnerKinds(x, c);
    assert Advance(x, c) == TryAgain(x, Decided(e, LOCAL_RETRY), c.mode);
  }

  /** The retry budget is exhausted by a fault: the run stops. */
  lemma GivesUp(b: Bench, plan: Plan, c: Control)
    requires Arranged(b) && Effective(b, plan)
    requires Trying(b, plan, b.config.maxRetries, c) && b.config.maxRetries < |b.Faults()|
    ensures var d := Advance(b.Machine(), c);
            d.mode == Final(false) && |d.results| == b.config.maxRetries + 1
  {
    hide Observe, OutcomeVerified, GoalsMet, Effective, HiddenAfter, Attempted, SameEvidence;
    var x := b.Machine();
    StruckAttempt(b, plan, b.config.maxRetries, c);
    assert Advance(x, c) == Halt(Decided(Attempted(x, c), SAFE_STOP));
  }

  /** The faults are exhausted first: the run succeeds two iterations later. */
  lemma Succeeds(b: Bench, plan: Plan, c: Control)
    requires Arranged(b) && Effective(b, plan) && InTime(b) && Trying(b, plan, |b.Faults()|, c)
    ensures var x := b.Machine();
            var d := Advance(x, Advance(x, c));
            d.mode == Final(true) && |d.results| == |b.Faults()| + 1
  {
    hide Observe, OutcomeVerified, GoalsMet, InTime, HiddenAfter, Attempted, SameEvidence, Look;
    var x := b.Machine();
    CleanAttempt(b, plan, c);
    var d := Advance(x, c);
    assert d == Attempted(x, c).(mode := Outer, index := 1);
    LooksLike(b, b.Done(), d);
    SameGoals(plan, b.Seen(b.Done()), Look(x, d));
  }

  // ---- The run ---------------------------------------------------------------------------------------------

  lemma {:induction false} TryingFrom(b: Bench, plan: Plan, j: nat, c: Control, s: State, earlier: real)
    requires Arranged(b) && Effective(b, plan) && InTime(b) && Passes(b, s, earlier)
    requires SameEvidence(b.Seen(b.hidden), s)
    requires Trying(b, plan, 0, c) && j <= |b.Faults()| && j <= b.config.maxRetries
    ensures Trying(b, plan, j, Iterate(b.Machine(), c, j))
  {
    hide Arranged, Effective, InTime, Passes, SameEvidence, Trying, Advance;
    if j > 0 {
      TryingFrom(b, plan, j - 1, c, s, earlier);
      TriesAgain(b, plan, j - 1, Iterate(b.Machine(), c, j - 1), s, earlier);
    }
  }

  /** The first look, the launch, and the first guard check. */
  lemma StartsTrying(b: Bench, plan: Plan, last: Option<string>)
    requires Arranged(b) && InTime(b) && plan.steps == [b.step]
    requires var x := b.Machine();
             var s := Overlay(x.backend.observe([]), last);
             Ground(x.Reg(), x.Caps(), x.backend.clock([Observed(s)], ForGround),
                    WithGoalState(x.Reg(), plan, s), s).valid
    ensures var x := b.Machine();
            var s := Overlay(x.backend.observe([]), last);
            && Trying(b, WithGoalState(x.Reg(), plan, s), 0, After(x, plan, [], last, 1))
            && Passes(b, s, x.backend.clock([Observed(s)], ForGround))
            && SameEvidence(b.Seen(b.hidden), s)
  {
    hide Observe, Ground, WithGoalState, InTime, HiddenAfter, GuardAllows, Start, Passes, SameEvidence, Advance;
    var x := b.Machine();
    var c := Start(x, plan, [], last);
    var s := Overlay(x.backend.observe([]), last);
    var now := x.backend.clock([Observed(s)], ForGround);
    WithGoalStateSteps(x.Reg(), plan, s);
    LaunchOnce(x, plan, last);
    SameWorldNow(b);
    LooksLike(b, b.hidden, Begin(plan, [], last));
    HiddenOne(b.sensors, b.hidden, [], Observed(s));
    assert [] + [Observed(s)] == [Observed(s)];
    FirstPasses(b, WithGoalState(x.Reg(), plan, s), s, now);
    GuardPassesAgain(b, s, now, c);
    LooksLike(b, b.hidden, c);
    HiddenOne(b.sensors, b.hidden, c.log, Observed(Look(x, c)));
    EntersOnce(x, c);
    assert Iterate(x, c, 1) == Advance(x, Iterate(x, c, 0));
  }

  lemma FirstPasses(b: Bench, goal: Plan, s: State, now: real)
    requires Arranged(b) && goal.steps == [b.step]
    requires Ground(b.config.reg, b.Machine().Caps(), now, goal, s).valid
    ensures Passes(b, s, now)
  {
    hide Ground;
    var reg, caps := b.config.reg, b.Machine().Caps();
    GroundedSteps(reg, caps, now, goal, s);
    assert StepGrounded(reg, caps, now, goal.steps[0], SimAt(reg, goal.steps, s, 0));
  }

  lemma EntersOnce(x: Setup, c: Control)
    requires c.mode.Outer? && c.index < |c.plan.steps| && Callable(x.Reg(), c.plan.steps[c.index])
    requires var step := c.plan.steps[c.index];
             GuardAllows(Lookup(x.Reg(), step.skill).value, step, Look(x, c),
                         x.backend.clock(Saw(c, Look(x, c)).log, ForGuard))
    ensures var step := c.plan.steps[c.index];
            Advance(x, c) ==
            Saw(c, Look(x, c)).(mode := Inner(step, Lookup(x.Reg(), step.skill).value, Look(x, c), 1))
  {
  }

  lemma WithGoalStateSteps(reg: Skillset, plan: Plan, s: State)
    ensures WithGoalState(reg, plan, s).steps == plan.steps
  {
  }

  lemma SameWorldNow(b: Bench)
    requires Arranged(b)
    ensures HiddenAfter(b.sensors, b.hidden, []) == b.hidden == b.Struck(0)
  {
    assert b.Faults()[0..] == b.Faults();
    if b.skill.name in b.hidden.faults {
      assert b.hidden.faults[b.skill.name := b.Faults()] == b.hidden.faults;
    }
  }

  lemma LaunchOnce(x: Setup, plan: Plan, last: Option<string>)
    requires var s := Overlay(x.backend.observe([]), last);
             Ground(x.Reg(), x.Caps(), x.backend.clock([Observed(s)], ForGround),
                    WithGoalState(x.Reg(), plan, s), s).valid
    ensures var s := Overlay(x.backend.observe([]), last);
            var c := Start(x, plan, [], last);
            && c.mode.Outer? && c.plan == WithGoalState(x.Reg(), plan, s) && c.log == [Observed(s)]
            && c.index == 0 && c.replans == 0 && c.results == [] && c.last == last
  {
    hide Ground, WithGoalState;
    var s := Overlay(x.backend.observe([]), last);
    assert [] + [Observed(s)] == [Observed(s)];
  }

  /** Exact retry. Take a one-step plan the grounder accepts on the mock, whose effect is not
      already there, k queued drift-free faults on its skill, a policy that allows retry and
      no replanner. For all k and maxRetries: if k <= maxRetries the run succeeds with exactly
      k + 1 commands; otherwise it stops after exactly maxRetries + 1. */
  lemma ExactRetry(b: Bench, plan: Plan, last: Option<string>)
    requires Arranged(b) && InTime(b) && plan.steps == [b.step]
    requires var x := b.Machine();
             var s := Overlay(x.backend.observe([]), last);
             && Ground(x.Reg(), x.Caps(), x.backend.clock([Observed(s)], ForGround),
                       WithGoalState(x.Reg(), plan, s), s).valid
             && Effective(b, WithGoalState(x.Reg(), plan, s))
    ensures var x := b.Machine();
            var k, r := |b.Faults()|, b.config.maxRetries;
            if k <= r then
              var c := After(x, plan, [], last, k + 3);
              c.mode == Final(true) && |c.results| == k + 1
            else
              var c := After(x, plan, [], last, r + 2);
              c.mode == Final(false) && |c.results| == r + 1
  {
    hide Arranged, InTime, Effective, Ground, WithGoalState, Trying, Passes, SameEvidence, Advance, Start, Overlay;
    var x := b.Machine();
    var s := Overlay(x.backend.observe([]), last);
    var goal := WithGoalState(x.Reg(), plan, s);
    var now := x.backend.clock([Observed(s)], ForGround);
    var k, r := |b.Faults()|, b.config.maxRetries;
    var start := Start(x, plan, [], last);
    StartsTrying(b, plan, last);
    var first := Iterate(x, start, 1);
    var j := if k <= r then k else r;
    TryingFrom(b, goal, j, first, s, now);
    IterateAdd(x, start, 1, j);
    var c := Iterate(x, start, j + 1);
    assert Iterate(x, start, j + 2) == Advance(x, c);
    assert Iterate(x, start, j + 3) == Advance(x, Iterate(x, start, j + 2));
    if k <= r { Succeeds(b, goal, c); } else { GivesUp(b, goal, c); }
  }
}
