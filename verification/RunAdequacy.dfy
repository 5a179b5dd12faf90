/** Grounding is adequate: what the grounder accepts, a faithful backend executes. */
module RunAdequacy {
  import opened Values
  import opened RobotState
  import opened Templates
  import opened Skills
  import opened Registry
  import opened Capability
  import opened Grounder
  import opened GrounderSpec
  import opened Executor
  import opened Transitions
  import opened RunSafety

  // ---- A faithful backend ---------------------------------------------------------------------

  /** The world after a log: every command realises exactly its declared effects. */
  function World(reg: Skillset, w: State, log: Log): State {
    if log == [] then w
    else
      var before := World(reg, w, log[..|log| - 1]);
      match log[|log| - 1]
      case Commanded(skill, args, _) =>
        (match Lookup(reg, skill)
         case Some(sk) => Copy(before, ExpectedEffects(sk, args, before))
         case None => before)
      case _ => before
  }

  /** Evidence that is not older than any precondition of the registry allows. */
  ghost predicate Timely(reg: Skillset, s: State, now: real) {
    forall sk, p, f :: sk in reg && p in sk.preconditions ==>
      InAge(StampOf(s, f), p.maxAge, now)
  }

  predicate Truthful(s: State, w: State, active: set<string>) {
    s.vals == w.vals && s.active == active && s.stale == {} && s.conflicts == map[]
  }

  predicate Prompt(reg: Skillset, skill: string, r: Receipt) {
    r.accepted && (Knows(reg, skill) ==> r.elapsed <= Lookup(reg, skill).value.timeout)
  }

  predicate Demanded(s: State, args: Args, p: Predicate) {
    OptEq(Raw(s, Format(p.field, args)), Some(p.expected))
  }

  /** What a contract asks of the world before its command: a valid call, the expected values
      of its preconditions, and effects that can be predicted. */
  predicate ContractMet(reg: Skillset, s: State, skill: string, args: Args) {
    match Lookup(reg, skill)
    case None => false
    case Some(sk) =>
      && ValidArgs(sk, args)
      && (forall p :: p in sk.preconditions ==> Demanded(s, args, p))
      && var effects := ExpectedEffects(sk, args, s); forall k :: k in effects ==> effects[k].Some?
  }

  /** Every command of the log was sent when its contract was met, and nothing was stopped. */
  predicate Proper(reg: Skillset, w: State, log: Log) {
    log == [] ||
    (var prior := log[..|log| - 1];
     && Proper(reg, w, prior)
     && match log[|log| - 1]
        case Commanded(skill, args, _) => ContractMet(reg, World(reg, w, prior), skill, args)
        case Stopped => false
        case _ => true)
  }

  /** As long as contracts are respected, observations are truthful and fresh when the guard
      reads them, and commands are accepted in time and realise their declared effects.
      Nothing is promised about any other use. */
  ghost predicate Faithful(x: Setup, w: State) {
    && (forall log :: Proper(x.Reg(), w, log) ==>
          Truthful(x.backend.observe(log), World(x.Reg(), w, log), w.active))
    && (forall log, fields :: Proper(x.Reg(), w, log) ==>
          Truthful(x.backend.acquire(log, fields), World(x.Reg(), w, log), w.active))
    && (forall log, last: Option<string> {:trigger Overlay(x.backend.observe(log), last)} ::
          Proper(x.Reg(), w, log) ==>
            var s := Overlay(x.backend.observe(log), last);
            Timely(x.Reg(), s, x.backend.clock(log + [Observed(s)], ForGuard)))
    && (forall log, skill, args ::
          Proper(x.Reg(), w, log) && ContractMet(x.Reg(), World(x.Reg(), w, log), skill, args) ==>
            Prompt(x.Reg(), skill, x.backend.command(log, skill, args)))
  }

  lemma ProperOne(reg: Skillset, w: State, log: Log, e: Event)
    ensures Proper(reg, w, log + [e]) <==>
            && Proper(reg, w, log)
            && match e
               case Commanded(skill, args, _) => ContractMet(reg, World(reg, w, log), skill, args)
               case Stopped => false
               case _ => true
  {
    assert (log + [e])[..|log|] == log;
  }

  /** A grounded step is a proper call in any world with the simulated values. */
  lemma GroundedCallIsProper(reg: Skillset, caps: Option<Capabilities>, now: real, step: Step, sim: State, world: State)
    requires StepGrounded(reg, caps, now, step, sim) && world.vals == sim.vals
    ensures ContractMet(reg, world, step.skill, step.arguments)
  {
    var sk, args := Lookup(reg, step.skill).value, step.arguments;
    assert forall k :: Raw(world, k) == Raw(sim, k);
    forall p | p in sk.preconditions ensures Demanded(world, args, p) {
      assert Evaluate(p, sim, args, now).Satisfied();
    }
    MirroredEffects(sk, args, sim, world);
  }

  // ---- States that know at least as much ----------------------------------------------------------

  /** `b` has every value `a` has, and may know more. */
  ghost predicate KnowsMore(a: State, b: State) {
    forall k :: Raw(a, k).Some? ==> Raw(b, k) == Raw(a, k)
  }

  /** A clean look at the simulated facts. */
  ghost predicate Mirrors(sim: State, s: State) {
    && KnowsMore(sim, s)
    && s.active == sim.active && s.stale == {} && s.conflicts == map[]
    && Raw(s, EMERGENCY) == Raw(sim, EMERGENCY) && Raw(s, FAULT) == Raw(sim, FAULT)
  }

  lemma OverlayMirrors(sim: State, s: State, last: Option<string>)
    requires s.vals == sim.vals && s.active == sim.active && s.stale == {} && s.conflicts == map[]
    ensures Mirrors(sim, Overlay(s, last))
  {
    assert forall k :: Raw(s, k) == Raw(sim, k);
  }

  lemma MirroredPreconditions(reg: Skillset, sk: Skill, args: Args, sim: State, s: State, grounded: real, now: real)
    requires Mirrors(sim, s) && sk in reg && Timely(reg, s, now)
    requires PreconditionsHold(sk, sim, args, grounded)
    ensures PreconditionsHold(sk, s, args, now)
  {
    forall p | p in sk.preconditions ensures Evaluate(p, s, args, now).Satisfied() {
      var f := Format(p.field, args);
      assert Evaluate(p, sim, args, grounded).Satisfied();
      assert InAge(StampOf(s, f), p.maxAge, now);
      assert Raw(sim, f).Some? && Raw(s, f) == Raw(sim, f);
    }
  }

  lemma MirroredEffects(sk: Skill, args: Args, a: State, b: State)
    requires KnowsMore(a, b)
    requires forall k :: k in ExpectedEffects(sk, args, a) ==> ExpectedEffects(sk, args, a)[k].Some?
    ensures ExpectedEffects(sk, args, b) == ExpectedEffects(sk, args, a)
  {
    EffectsDictionary(sk.effects, args, a);
    EffectsDictionary(sk.effects, args, b);
    var p, q := ExpectedEffects(sk, args, a), ExpectedEffects(sk, args, b);
    forall k | k in p ensures k in q && q[k] == p[k] {
      var e := SpecFor(sk.effects, args, k).value;
      assert p[k] == ExpectedValue(e, args, a) && q[k] == ExpectedValue(e, args, b);
    }
    assert p.Keys == q.Keys;
  }

  lemma ToleranceOf(sk: Skill, e: Effect)
    requires WellFormed(sk) && e in sk.effects
    ensures 0.0 <= e.tolerance
  {
    assert WellFormedEffect(sk, e);
  }

  lemma SeenAsPredicted(sk: Skill, args: Args, after: State, k: string, value: Value, e: Effect)
    requires SpecFor(sk.effects, args, k) == Some(e) && 0.0 <= e.tolerance
    requires Epistemic(after, k).status == Known && Raw(after, k) == Some(value)
    ensures FieldVerified(sk, args, after, k, Some(value))
  {
  }

  lemma MirrorIsKnown(sim: State, after: State, k: string)
    requires Mirrors(sim, after) && Raw(sim, k).Some?
    ensures Raw(after, k) == Raw(sim, k) && Epistemic(after, k).status == Known
  {
  }

  /** Observing exactly the predicted values verifies the outcome. */
  lemma PredictedIsVerified(sk: Skill, args: Args, before: State, sim: State, after: State)
    requires WellFormed(sk)
    requires var effects := ExpectedEffects(sk, args, before);
             && (forall k :: k in effects ==> effects[k].Some?)
             && Mirrors(Copy(sim, effects), after)
    ensures OutcomeVerified(sk, args, before, after)
  {
    hide WellFormed, Mirrors, FieldVerified, EpistemicValue, EffectsOf, SpecFor;
    var effects := ExpectedEffects(sk, args, before);
    EffectsDictionary(sk.effects, args, before);
    forall k | k in effects ensures FieldVerified(sk, args, after, k, effects[k]) {
      var e := SpecFor(sk.effects, args, k).value;
      ToleranceOf(sk, e);
      MirrorIsKnown(Copy(sim, effects), after, k);
      SeenAsPredicted(sk, args, after, k, effects[k].value, e);
    }
  }

  // ---- Goals projected from the plan ------------------------------------------------------------------

  predicate GoalsHold(goals: Goals, s: State) {
    && (forall g :: g in goals ==> Raw(s, g.0) == Some(g.1))
    && (forall i, j :: 0 <= i < j < |goals| ==> goals[i].0 != goals[j].0)
  }

  /** What `goals.update` leaves: the new pair, and the old pairs of other fields. */
  lemma {:induction false} PutGoalExact(goals: Goals, field: string, value: Value)
    requires forall i, j :: 0 <= i < j < |goals| ==> goals[i].0 != goals[j].0
    ensures var r := PutGoal(goals, field, value);
            && (forall g :: g in r <==> g == (field, value) || (g in goals && g.0 != field))
            && (forall i, j :: 0 <= i < j < |r| ==> r[i].0 != r[j].0)
  {
    if goals != [] {
      var rest := goals[1..];
      assert goals == [goals[0]] + rest;
      assert forall g :: g in goals <==> g == goals[0] || g in rest;
      PutGoalExact(rest, field, value);
      var r := PutGoal(goals, field, value);
      if goals[0].0 == field {
        assert forall g :: g in rest ==> g.0 != field;
        assert r[1..] == rest;
      } else {
        assert r[1..] == PutGoal(rest, field, value);
      }
    }
  }

  /** Goals on fields outside `keys` hold already; those inside are about to be replaced. */
  predicate GoalsHoldBut(goals: Goals, s: State, keys: seq<string>) {
    && (forall g :: g in goals && g.0 !in keys ==> Raw(s, g.0) == Some(g.1))
    && (forall i, j :: 0 <= i < j < |goals| ==> goals[i].0 != goals[j].0)
  }

  lemma {:induction false} UpdateGoalsHold(goals: Goals, keys: seq<string>, effects: Changes, s: State)
    requires GoalsHoldBut(goals, s, keys)
    requires forall k :: k in keys ==> k in effects && effects[k].Some? && Raw(s, k) == effects[k]
    ensures GoalsHold(UpdateGoals(goals, keys, effects), s)
    decreases |keys|
  {
    if keys != [] {
      var k, rest := keys[0], keys[1..];
      assert forall n :: n in keys <==> n == k || n in rest;
      PutGoalExact(goals, k, effects[k].value);
      UpdateGoalsHold(PutGoal(goals, k, effects[k].value), rest, effects, s);
    }
  }

  lemma StepGoalsHold(reg: Skillset, goals: Goals, step: Step, s: State)
    requires GoalsHold(goals, s)
    requires Knows(reg, step.skill)
    requires forall k :: k in StepEffects(reg, step, s) ==> StepEffects(reg, step, s)[k].Some?
    ensures GoalsHold(StepGoals(reg, goals, step, s), Project(reg, s, step))
  {
    var sk := Lookup(reg, step.skill).value;
    var effects := ExpectedEffects(sk, step.arguments, s);
    var keys := EffectKeys(sk, step.arguments);
    EffectsDictionary(sk.effects, step.arguments, s);
    assert StepEffects(reg, step, s) == effects;
    assert forall k :: k in keys <==> k in effects;
    assert forall k :: k !in effects ==> Raw(Copy(s, effects), k) == Raw(s, k);
    assert GoalsHoldBut(goals, Copy(s, effects), keys);
    assert forall k :: k in keys ==> Raw(Copy(s, effects), k) == effects[k];
    UpdateGoalsHold(goals, keys, effects, Copy(s, effects));
  }

  lemma GroundedStepPredicts(reg: Skillset, caps: Option<Capabilities>, now: real, step: Step, sim: State)
    requires StepGrounded(reg, caps, now, step, sim)
    ensures Callable(reg, step)
    ensures forall k :: k in StepEffects(reg, step, sim) ==> StepEffects(reg, step, sim)[k].Some?
  {
  }

  /** No effect raises while it is evaluated along the projection. */
  predicate EachPredictable(reg: Skillset, steps: seq<Step>, s: State) {
    forall i :: 0 <= i < |steps| ==> Predictable(reg, steps[i], SimAt(reg, steps, s, i))
  }

  /** No two active effects of a call write the same field. */
  predicate SingleWriters(sk: Skill, args: Args) {
    forall e, f :: e in sk.effects && f in sk.effects && Active(e, args) && Active(f, args) ==>
      Format(e.field, args) == Format(f.field, args) ==> e == f
  }

  /** With single writers a grounded step is predictable: every raising effect would have
      been reported. */
  lemma GroundedIsPredictable(reg: Skillset, caps: Option<Capabilities>, now: real, step: Step, sim: State)
    requires StepGrounded(reg, caps, now, step, sim)
    requires var sk := Lookup(reg, step.skill).value; WellFormed(sk) && SingleWriters(sk, step.arguments)
    ensures Predictable(reg, step, sim)
  {
    hide WellFormed, ValidArgs, EffectsOf, KeysOf, Resolvable;
    var sk, args := Lookup(reg, step.skill).value, step.arguments;
    ValidCallsResolve(sk, args);
    EffectsDictionary(sk.effects, args, sim);
    forall e | e in sk.effects && Active(e, args) ensures Evaluable(e, args, sim) {
      var k := Format(e.field, args);
      WriterOwns(sk.effects, args, e);
      assert SpecFor(sk.effects, args, k).value == e;
      assert ExpectedEffects(sk, args, sim)[k] == ExpectedValue(e, args, sim);
    }
  }

  lemma {:induction false} WriterOwns(effects: seq<Effect>, args: Args, e: Effect)
    requires e in effects && Active(e, args)
    ensures SpecFor(effects, args, Format(e.field, args)).Some?
  {
    if effects[|effects| - 1] != e { WriterOwns(effects[..|effects| - 1], args, e); }
  }

  lemma {:induction false} GoalFoldHolds(reg: Skillset, caps: Option<Capabilities>, now: real,
                                         steps: seq<Step>, s: State, k: nat, goals: Goals)
    requires k <= |steps| && GoalsHold(goals, SimAt(reg, steps, s, k))
    requires EachStepGrounded(reg, caps, now, steps, s) && EachPredictable(reg, steps, s)
    ensures GoalsHold(GoalFold(reg, steps[k..], SimAt(reg, steps, s, k), goals),
                      SimAt(reg, steps, s, |steps|))
    decreases |steps| - k
  {
    hide StepGrounded, Predictable, StepGoals, GoalsHold, StepEffects, Project;
    if k < |steps| {
      var sim := SimAt(reg, steps, s, k);
      assert steps[k..][0] == steps[k] && steps[k..][1..] == steps[k + 1..];
      GroundedStepPredicts(reg, caps, now, steps[k], sim);
      assert Predictable(reg, steps[k], sim);
      StepGoalsHold(reg, goals, steps[k], sim);
      GoalFoldHolds(reg, caps, now, steps, s, k + 1, StepGoals(reg, goals, steps[k], sim));
    }
  }

  // ---- One step --------------------------------------------------------------------------------------------

  /** The calls sent since the log was `base` long. */
  function Sent(base: nat, log: Log): seq<Call> {
    if |log| <= base then []
    else
      var e := log[|log| - 1];
      Sent(base, log[..|log| - 1]) + (if e.Commanded? then [(e.skill, e.args)] else [])
  }

  lemma SentOne(base: nat, log: Log, e: Event)
    requires base <= |log|
    ensures Sent(base, log + [e]) == Sent(base, log) + (if e.Commanded? then [(e.skill, e.args)] else [])
  {
    assert (log + [e])[..|log|] == log;
  }

  /** At the head of the step loop with `i` steps done as planned. */
  predicate OnTrack(x: Setup, w: State, base: nat, plan: Plan, s: State, i: nat, c: Control) {
    && i <= |plan.steps|
    && c.mode.Outer? && c.plan == plan && c.index == i && base <= |c.log|
    && |c.results| == i && c.replans == 0 && c.runtimeRepairs == 0
    && Sent(base, c.log) == Calls(plan.steps[..i])
    && Proper(x.Reg(), w, c.log)
    && World(x.Reg(), w, c.log).vals == SimAt(x.Reg(), plan.steps, s, i).vals
  }

  lemma {:induction false} SimKeepsActive(reg: Skillset, steps: seq<Step>, s: State, i: nat)
    requires i <= |steps|
    ensures SimAt(reg, steps, s, i).active == s.active
  {
    if i > 0 { SimKeepsActive(reg, steps, s, i - 1); }
  }

  lemma WorldOne(reg: Skillset, w: State, log: Log, e: Event)
    ensures World(reg, w, log + [e]) ==
            match e
            case Commanded(skill, args, _) =>
              (match Lookup(reg, skill)
               case Some(sk) =>
                 Copy(World(reg, w, log), ExpectedEffects(sk, args, World(reg, w, log)))
               case None => World(reg, w, log))
            case _ => World(reg, w, log)
  {
    assert (log + [e])[..|log|] == log;
  }

  /** Looking at the world that the simulation predicts. */
  lemma LookMirrors(x: Setup, w: State, c: Control, sim: State)
    requires Faithful(x, w) && Proper(x.Reg(), w, c.log)
    requires World(x.Reg(), w, c.log).vals == sim.vals && sim.active == w.active
    ensures Mirrors(sim, Look(x, c))
    ensures Timely(x.Reg(), Look(x, c), x.backend.clock(Saw(c, Look(x, c)).log, ForGuard))
  {
    assert Truthful(x.backend.observe(c.log), World(x.Reg(), w, c.log), w.active);
    OverlayMirrors(sim, x.backend.observe(c.log), c.last);
  }

  lemma GuardPasses(x: Setup, w: State, caps: Option<Capabilities>, now: real, step: Step, sim: State, c: Control)
    requires StepGrounded(x.Reg(), caps, now, step, sim)
    requires Mirrors(sim, Look(x, c))
    requires Timely(x.Reg(), Look(x, c), x.backend.clock(Saw(c, Look(x, c)).log, ForGuard))
    ensures GuardAllows(Lookup(x.Reg(), step.skill).value, step, Look(x, c),
                        x.backend.clock(Saw(c, Look(x, c)).log, ForGuard))
  {
    var sk := Lookup(x.Reg(), step.skill).value;
    MirroredPreconditions(x.Reg(), sk, step.arguments, sim, Look(x, c), now,
                          x.backend.clock(Saw(c, Look(x, c)).log, ForGuard));
    CheckStepExact(step.id, sk, Look(x, c));
  }

  lemma EntersStep(x: Setup, w: State, base: nat, caps: Option<Capabilities>, now: real, plan: Plan, s: State,
                   i: nat, c: Control)
    requires Faithful(x, w) && s.active == w.active
    requires EachStepGrounded(x.Reg(), caps, now, plan.steps, s)
    requires i < |plan.steps| && OnTrack(x, w, base, plan, s, i, c)
    ensures var d := Advance(x, c);
            Entered(x, c, d) && Mirrors(SimAt(x.Reg(), plan.steps, s, i), d.mode.before)
  {
    var sim := SimAt(x.Reg(), plan.steps, s, i);
    SimKeepsActive(x.Reg(), plan.steps, s, i);
    LookMirrors(x, w, c, sim);
    assert StepGrounded(x.Reg(), caps, now, plan.steps[i], sim);
    GuardPasses(x, w, caps, now, plan.steps[i], sim, c);
  }

  /** The world after the command is the next simulated state, and the verifier sees it. */
  lemma AttemptSucceeds(x: Setup, w: State, caps: Option<Capabilities>, now: real, sim: State, c: Control)
    requires Faithful(x, w) && WellFormedSkillset(x.Reg()) && sim.active == w.active
    requires c.mode.Inner? && StepGrounded(x.Reg(), caps, now, c.mode.step, sim)
    requires Lookup(x.Reg(), c.mode.step.skill) == Some(c.mode.skill)
    requires Mirrors(sim, c.mode.before) && World(x.Reg(), w, c.log).vals == sim.vals
    requires Proper(x.Reg(), w, c.log)
    ensures Achieved(x, c) && Proper(x.Reg(), w, Attempted(x, c).log)
    ensures World(x.Reg(), w, Attempted(x, c).log).vals == Project(x.Reg(), sim, c.mode.step).vals
  {
    hide Timely;
    var sk, args := c.mode.skill, c.mode.step.arguments;
    var receipt := x.backend.command(c.log, sk.name, args);
    GroundedCallIsProper(x.Reg(), caps, now, c.mode.step, sim, World(x.Reg(), w, c.log));
    assert Prompt(x.Reg(), sk.name, receipt);
    var c1 := c.(log := c.log + [Commanded(sk.name, args, receipt)]);
    var effects := ExpectedEffects(sk, args, sim);
    var next := Copy(sim, effects);
    MirroredEffects(sk, args, sim, c.mode.before);
    WorldCommanded(x.Reg(), w, c.log, sk, args, receipt, sim);
    ProperOne(x.Reg(), w, c.log, Commanded(sk.name, args, receipt));
    LookMirrors(x, w, c1, next);
    PredictedIsVerified(sk, args, c.mode.before, sim, Look(x, c1));
    WorldOne(x.Reg(), w, c1.log, Observed(Look(x, c1)));
    ProperOne(x.Reg(), w, c1.log, Observed(Look(x, c1)));
  }

  lemma WorldCommanded(reg: Skillset, w: State, log: Log, sk: Skill, args: Args, receipt: Receipt, sim: State)
    requires Lookup(reg, sk.name) == Some(sk) && World(reg, w, log).vals == sim.vals
    requires forall k :: k in ExpectedEffects(sk, args, sim) ==> ExpectedEffects(sk, args, sim)[k].Some?
    ensures World(reg, w, log + [Commanded(sk.name, args, receipt)]).vals ==
            Copy(sim, ExpectedEffects(sk, args, sim)).vals
  {
    var world := World(reg, w, log);
    assert forall k :: Raw(world, k) == Raw(sim, k);
    MirroredEffects(sk, args, sim, world);
    WorldOne(reg, w, log, Commanded(sk.name, args, receipt));
  }

  lemma AttemptSends(x: Setup, base: nat, c: Control, d: Control)
    requires c.mode.Outer? && Entered(x, c, d) && base <= |c.log|
    ensures Sent(base, Attempted(x, d).log) ==
            Sent(base, c.log) + [(c.plan.steps[c.index].skill, c.plan.steps[c.index].arguments)]
    ensures base <= |Attempted(x, d).log|
  {
    var m := d.mode;
    var receipt := x.backend.command(d.log, m.skill.name, m.step.arguments);
    var sent := Commanded(m.skill.name, m.step.arguments, receipt);
    var after := Look(x, d.(log := d.log + [sent]));
    SentOne(base, c.log, Observed(m.before));
    SentOne(base, d.log, sent);
    SentOne(base, d.log + [sent], Observed(after));
  }

  lemma CallsOne(steps: seq<Step>, i: nat)
    requires i < |steps|
    ensures Calls(steps[..i + 1]) == Calls(steps[..i]) + [(steps[i].skill, steps[i].arguments)]
  {
  }

  lemma ProgressesOnce(x: Setup, c: Control)
    requires c.mode.Inner? && Achieved(x, c)
    ensures Advance(x, c) == Attempted(x, c).(mode := Outer, index := c.index + 1)
    ensures SameWork(c.(results := Attempted(x, c).results, last := Attempted(x, c).last), Attempted(x, c))
    ensures |Attempted(x, c).results| == |c.results| + 1
  {
  }

  lemma StepStaysOnTrack(x: Setup, w: State, base: nat, caps: Option<Capabilities>, now: real, plan: Plan,
                         s: State, i: nat, c: Control)
    requires Faithful(x, w) && WellFormedSkillset(x.Reg()) && s.active == w.active
    requires EachStepGrounded(x.Reg(), caps, now, plan.steps, s)
    requires i < |plan.steps| && OnTrack(x, w, base, plan, s, i, c)
    ensures OnTrack(x, w, base, plan, s, i + 1, Advance(x, Advance(x, c)))
  {
    hide Faithful, Advance, Mirrors, StepGrounded, Attempted, World, Proper, Sent, Calls, Achieved, Look,
         Guarded, Callable;
    var d := Advance(x, c);
    EntersStep(x, w, base, caps, now, plan, s, i, c);
    WorldOne(x.Reg(), w, c.log, Observed(d.mode.before));
    ProperOne(x.Reg(), w, c.log, Observed(d.mode.before));
    var sim := SimAt(x.Reg(), plan.steps, s, i);
    SimKeepsActive(x.Reg(), plan.steps, s, i);
    assert StepGrounded(x.Reg(), caps, now, plan.steps[i], sim);
    AttemptSucceeds(x, w, caps, now, sim, d);
    ProgressesOnce(x, d);
    AttemptSends(x, base, c, d);
    CallsOne(plan.steps, i);
  }

  lemma {:induction false} StaysOnTrack(x: Setup, w: State, base: nat, caps: Option<Capabilities>, now: real,
                                        plan: Plan, s: State, c: Control, i: nat)
    requires Faithful(x, w) && WellFormedSkillset(x.Reg()) && s.active == w.active
    requires EachStepGrounded(x.Reg(), caps, now, plan.steps, s)
    requires i <= |plan.steps| && OnTrack(x, w, base, plan, s, 0, c)
    ensures OnTrack(x, w, base, plan, s, i, Iterate(x, c, 2 * i))
  {
    hide Faithful, Advance, OnTrack, EachStepGrounded;
    if i > 0 {
      StaysOnTrack(x, w, base, caps, now, plan, s, c, i - 1);
      StepStaysOnTrack(x, w, base, caps, now, plan, s, i - 1, Iterate(x, c, 2 * (i - 1)));
      assert Iterate(x, c, 2 * i) == Advance(x, Iterate(x, c, 2 * i - 1));
      assert Iterate(x, c, 2 * i - 1) == Advance(x, Iterate(x, c, 2 * (i - 1)));
    }
  }

  // ---- The whole run ------------------------------------------------------------------------------------------

  /** The goals hold, within the report tolerance, where the simulation ends. */
  predicate GoalsReached(plan: Plan, sim: State) {
    plan.metadata.goals.Some? ==>
      forall g :: g in plan.metadata.goals.value ==> Within(Raw(sim, g.0), g.1, REPORT_TOLERANCE)
  }

  /** No goal is on the executor's own last result. */
  predicate OwnGoals(plan: Plan) {
    plan.metadata.goals.Some? ==> forall g :: g in plan.metadata.goals.value ==> g.0 != LAST_RESULT
  }

  lemma GoalsSeen(x: Setup, w: State, c: Control, sim: State)
    requires Faithful(x, w) && Proper(x.Reg(), w, c.log)
    requires World(x.Reg(), w, c.log).vals == sim.vals && sim.active == w.active
    requires GoalsReached(c.plan, sim)
    ensures GoalsMet(c.plan, Look(x, c))
  {
    hide Timely, World;
    LookMirrors(x, w, c, sim);
    var s := Look(x, c);
    if c.plan.metadata.goals.Some? {
      forall g | g in c.plan.metadata.goals.value ensures GoalMet(s, g) {
        assert Within(Raw(sim, g.0), g.1, REPORT_TOLERANCE);
        assert Raw(s, g.0) == Raw(sim, g.0);
      }
    }
  }

  lemma FinishSucceeds(x: Setup, w: State, base: nat, plan: Plan, s: State, c: Control)
    requires Faithful(x, w) && s.active == w.active
    requires OnTrack(x, w, base, plan, s, |plan.steps|, c)
    requires GoalsReached(plan, SimAt(x.Reg(), plan.steps, s, |plan.steps|))
    ensures var d := Advance(x, c);
            && d.mode == Final(true) && d.plan == plan && |d.results| == |plan.steps|
            && Sent(base, d.log) == Calls(plan.steps)
  {
    hide Faithful, World, GoalsMet, GoalsReached, Look;
    SimKeepsActive(x.Reg(), plan.steps, s, |plan.steps|);
    GoalsSeen(x, w, c, SimAt(x.Reg(), plan.steps, s, |plan.steps|));
    SentOne(base, c.log, Observed(Look(x, c)));
    assert plan.steps[..|plan.steps|] == plan.steps;
  }

  /** Projected goals are reached by construction. */
  lemma ProjectedGoalsReached(reg: Skillset, caps: Option<Capabilities>, now: real, plan: Plan, s: State)
    requires EachStepGrounded(reg, caps, now, plan.steps, s) && EachPredictable(reg, plan.steps, s)
    requires plan.metadata.goals.None?
    ensures GoalsReached(WithGoalState(reg, plan, s), SimAt(reg, plan.steps, s, |plan.steps|))
  {
    hide EachStepGrounded, EachPredictable, SimAt, GoalFold;
    var goals := GoalFold(reg, plan.steps, s, []);
    var end := SimAt(reg, plan.steps, s, |plan.steps|);
    assert plan.steps[0..] == plan.steps;
    assert SimAt(reg, plan.steps, s, 0) == s by { SimStart(reg, plan.steps, s); }
    GoalFoldHolds(reg, caps, now, plan.steps, s, 0, []);
    forall g | g in goals ensures Within(Raw(end, g.0), g.1, REPORT_TOLERANCE) {
      assert Raw(end, g.0) == Some(g.1);
    }
  }

  lemma SimStart(reg: Skillset, steps: seq<Step>, s: State)
    ensures SimAt(reg, steps, s, 0) == s
  {
  }

  /** The first refresh of a new executor: the state manager has no result of its own. */
  function FirstLook(x: Setup, log: Log): State { x.backend.observe(log) }

  predicate NoEarlierResult(x: Setup, log: Log, last: Option<string>) {
    Raw(FirstLook(x, log), LAST_RESULT).None? ==> last.None?
  }

  lemma Launches(x: Setup, w: State, plan: Plan, log: Log, last: Option<string>)
    requires Faithful(x, w) && Proper(x.Reg(), w, log) && NoEarlierResult(x, log, last)
    requires var s := FirstLook(x, log);
             Ground(x.Reg(), x.Caps(), x.backend.clock(log + [Observed(s)], ForGround),
                    WithGoalState(x.Reg(), plan, s), s).valid
    ensures var s := FirstLook(x, log);
            OnTrack(x, w, |log|, WithGoalState(x.Reg(), plan, s), s, 0, Start(x, plan, log, last))
  {
    hide Ground, Timely, WithGoalState;
    var s := FirstLook(x, log);
    assert Look(x, Begin(plan, log, last)) == s;
    assert Truthful(s, World(x.Reg(), w, log), w.active);
    WorldOne(x.Reg(), w, log, Observed(s));
    ProperOne(x.Reg(), w, log, Observed(s));
    SentOne(|log|, log, Observed(s));
  }

  /** Adequacy of grounding. Take a plan the grounder accepts on the first look, with goals
      its simulation reaches - as goals projected from the plan always are - and a faithful
      backend. Then the run succeeds after one dispatch and one verification per step, the
      commands sent are the steps of the plan in order, and the world after step i holds
      exactly the values of the i-th simulated state. */
  lemma GroundedPlanExecutes(x: Setup, w: State, plan: Plan, log: Log, last: Option<string>)
    requires Faithful(x, w) && WellFormedSkillset(x.Reg())
    requires Proper(x.Reg(), w, log) && NoEarlierResult(x, log, last)
    requires var s := FirstLook(x, log);
             && Ground(x.Reg(), x.Caps(), x.backend.clock(log + [Observed(s)], ForGround),
                       WithGoalState(x.Reg(), plan, s), s).valid
             && EachPredictable(x.Reg(), plan.steps, s)
             && GoalsReached(plan, SimAt(x.Reg(), plan.steps, s, |plan.steps|))
    ensures var s := FirstLook(x, log);
            var n := |plan.steps|;
            var c := After(x, plan, log, last, 2 * n + 1);
            && c.mode == Final(true)
            && Sent(|log|, c.log) == Calls(plan.steps)
            && |c.results| == n
            && forall i :: 0 <= i <= n ==>
                 var at := After(x, plan, log, last, 2 * i).log;
                 Proper(x.Reg(), w, at) && World(x.Reg(), w, at).vals == SimAt(x.Reg(), plan.steps, s, i).vals
  {
    hide Faithful, Proper, Ground, Grounded, Advance, OnTrack, Start, EachPredictable, GoalsReached, SimAt, World, Sent;
    var s := FirstLook(x, log);
    var goal := WithGoalState(x.Reg(), plan, s);
    var now := x.backend.clock(log + [Observed(s)], ForGround);
    var n := |plan.steps|;
    var c := Start(x, plan, log, last);
    GroundedSteps(x.Reg(), x.Caps(), now, goal, s);
    Launches(x, w, plan, log, last);
    FirstLookActive(x, w, log);
    forall i | 0 <= i <= n
      ensures var at := After(x, plan, log, last, 2 * i).log;
              Proper(x.Reg(), w, at) && World(x.Reg(), w, at).vals == SimAt(x.Reg(), plan.steps, s, i).vals
    {
      StaysOnTrack(x, w, |log|, x.Caps(), now, goal, s, c, i);
      OnTrackWorld(x, w, |log|, goal, s, i, Iterate(x, c, 2 * i));
    }
    StaysOnTrack(x, w, |log|, x.Caps(), now, goal, s, c, n);
    if plan.metadata.goals.None? { ProjectedGoalsReached(x.Reg(), x.Caps(), now, plan, s); }
    FinishSucceeds(x, w, |log|, goal, s, Iterate(x, c, 2 * n));
    assert Iterate(x, c, 2 * n + 1) == Advance(x, Iterate(x, c, 2 * n));
  }

  lemma GroundedSteps(reg: Skillset, caps: Option<Capabilities>, now: real, plan: Plan, s: State)
    requires Ground(reg, caps, now, plan, s).valid
    ensures EachStepGrounded(reg, caps, now, plan.steps, s)
  {
    hide Ground;
    GroundExact(reg, caps, now, plan, s);
  }

  lemma OnTrackWorld(x: Setup, w: State, base: nat, plan: Plan, s: State, i: nat, c: Control)
    requires OnTrack(x, w, base, plan, s, i, c)
    ensures Proper(x.Reg(), w, c.log)
    ensures World(x.Reg(), w, c.log).vals == SimAt(x.Reg(), plan.steps, s, i).vals
  {
  }

  lemma FirstLookActive(x: Setup, w: State, log: Log)
    requires Faithful(x, w) && Proper(x.Reg(), w, log)
    ensures FirstLook(x, log).active == w.active
  {
    assert Truthful(x.backend.observe(log), World(x.Reg(), w, log), w.active);
  }

  // ---- Faithful backends exist --------------------------------------------------------------------------------

  /** The backend that performs the declared effects on `w` and reports what is there. */
  function Performer(reg: Skillset, w: State, caps: Capabilities): Backend {
    Backend((log: Log) => State(World(reg, w, log).vals, w.active, map[], {}, map[], At(0.0)),
            (log: Log, fields: set<string>) => State(World(reg, w, log).vals, w.active, map[], {}, map[], At(0.0)),
            (log: Log, skill: string, args: Args) => Receipt(true, false, 0.0),
            (log: Log, reading: Reading) => 0.0,
            caps)
  }

  lemma FaithfulBackendsExist(config: Config, flags: Flags, w: State, caps: Capabilities)
    requires forall sk, p :: sk in config.reg && p in sk.preconditions && p.maxAge.Some? ==> 0.0 <= p.maxAge.value
    requires forall sk :: sk in config.reg ==> 0.0 <= sk.timeout
    ensures Faithful(Setup(config, flags, Performer(config.reg, w, caps)), w)
  {
    var x := Setup(config, flags, Performer(config.reg, w, caps));
    forall log, last: Option<string>
      ensures var s := Overlay(x.backend.observe(log), last);
              Timely(config.reg, s, x.backend.clock(log + [Observed(s)], ForGuard))
    {
      var s := Overlay(x.backend.observe(log), last);
      assert forall f :: StampOf(s, f) == At(0.0);
    }
  }
}
