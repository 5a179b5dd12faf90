/** The mock and the default contracts: when a built-in transition does what its contract
    declares, and what a grounded plan of built-in skills does to the hidden world. */
module MockContracts {
  import opened Values
  import opened RobotState
  import opened Templates
  import opened Skills
  import opened Registry
  import opened DefaultSkills
  import opened Capability
  import opened Grounder
  import opened GrounderSpec
  import opened Executor
  import opened RunSafety
  import opened RunAdequacy
  import opened RunLaunch
  import opened MockBackend
  import opened MockTruth

  // ---- Transitions against contracts -----------------------------------------------------------------

  function Declared(world: State, skill: string, args: Args): State {
    Project(DEFAULTS, world, Step("", skill, args, [], None, None))
  }

  /** The call is valid and its effects can be predicted. */
  predicate PredictedCall(world: State, skill: string, args: Args) {
    && Knows(DEFAULTS, skill)
    && var sk := Lookup(DEFAULTS, skill).value;
       var effects := ExpectedEffects(sk, args, world);
       ValidArgs(sk, args) && forall k :: k in effects ==> effects[k].Some?
  }

  lemma SameValues(a: State, b: State)
    requires forall k :: Raw(a, k) == Raw(b, k)
    ensures a.vals == b.vals
  {
    forall k ensures k in a.vals <==> k in b.vals { assert Raw(a, k) == Raw(b, k); }
    forall k | k in a.vals ensures a.vals[k] == b.vals[k] { assert Raw(a, k) == Raw(b, k); }
  }

  lemma Passed(sk: Skill, args: Args, p: Param)
    requires ValidArgs(sk, args) && p in sk.params
    ensures ParamOk(p, args)
  {
  }

  lemma NumericArgument(sk: Skill, args: Args, p: Param)
    requires ValidArgs(sk, args) && p in sk.params && p.kind == TNumber && p.name in args
    ensures Num(args[p.name]).Some? && Coerce(args[p.name]) == Float(FloatArgument(args, p.name))
  {
    assert ParamOk(p, args);
  }

  /** What the mock writes beyond the declared effects: `move_agv` clears the motion flag,
      `extend_arm` asserts readiness. */
  function Undeclared(skill: string, args: Args): Changes {
    if skill == "move_agv" then map[MOVING := Some(Bool(false))]
    else if skill == "extend_arm" then map[ArmOf(args) + "_arm_ready" := Some(Bool(true))]
    else map[]
  }

  lemma MoveWrites(world: State, args: Args)
    requires PredictedCall(world, "move_agv", args)
    ensures Builtin(world, "move_agv", args) ==
            Some(Undeclared("move_agv", args) + ExpectedEffects(MOVE_AGV, args, world))
  {
    hide EffectsOf, Lookup, Format, ValidArgs;
    DefaultLookup("move_agv");
    DefaultEffects(args, world);
    LiteralFormat(POSITION, args);
    var p := MOVE_AGV.params[0];
    Passed(MOVE_AGV, args, p);
    var e := MOVE_AGV.effects[0];
    var effects := ExpectedEffects(MOVE_AGV, args, world);
    assert effects[POSITION].Some?;
    assert ExpectedValue(e, args, world) ==
           Some(Float(Num(Raw(world, POSITION).value).value + FloatArgument(args, "distance_m")));
    assert MOVING != POSITION;
    assert Builtin(world, "move_agv", args).value == Undeclared("move_agv", args) + effects;
  }

  lemma LiftWrites(world: State, args: Args)
    requires PredictedCall(world, "set_lift", args)
    ensures Builtin(world, "set_lift", args) ==
            Some(Undeclared("set_lift", args) + ExpectedEffects(SET_LIFT, args, world))
  {
    hide EffectsOf, Lookup, Format, ValidArgs;
    DefaultLookup("set_lift");
    DefaultEffects(args, world);
    var p := SET_LIFT.params[0];
    Passed(SET_LIFT, args, p);
    NumericArgument(SET_LIFT, args, p);
    assert Builtin(world, "set_lift", args).value ==
           Undeclared("set_lift", args) + ExpectedEffects(SET_LIFT, args, world);
  }

  lemma HeadWrites(world: State, args: Args)
    requires PredictedCall(world, "set_head", args)
    ensures Builtin(world, "set_head", args) ==
            Some(Undeclared("set_head", args) + ExpectedEffects(SET_HEAD, args, world))
  {
    hide EffectsOf, Lookup, Format, ValidArgs;
    DefaultLookup("set_head");
    DefaultEffects(args, world);
    assert SET_HEAD.params[0] in SET_HEAD.params && SET_HEAD.params[1] in SET_HEAD.params;
    if "yaw_deg" in args { NumericArgument(SET_HEAD, args, SET_HEAD.params[0]); }
    if "pitch_deg" in args { NumericArgument(SET_HEAD, args, SET_HEAD.params[1]); }
    assert Builtin(world, "set_head", args).value ==
           Undeclared("set_head", args) + ExpectedEffects(SET_HEAD, args, world);
  }

  lemma ArmFieldsDiffer(arm: string)
    ensures arm + "_arm_ready" != arm + "_arm_safe"
  {
    assert |arm + "_arm_ready"| != |arm + "_arm_safe"|;
  }

  lemma RetractWrites(world: State, args: Args)
    requires PredictedCall(world, "retract_arm", args)
    ensures Builtin(world, "retract_arm", args) ==
            Some(Undeclared("retract_arm", args) + ExpectedEffects(RETRACT_ARM, args, world))
  {
    hide EffectsOf, Lookup, Format, ValidArgs;
    DefaultEffects(args, world);
    assert Builtin(world, "retract_arm", args).value ==
           Undeclared("retract_arm", args) + ExpectedEffects(RETRACT_ARM, args, world);
  }

  lemma ExtendEffects(args: Args, world: State)
    ensures ExpectedEffects(EXTEND_ARM, args, world) == map[ArmOf(args) + "_arm_safe" := Some(Bool(false))]
  {
    hide ExpectedEffects;
    DefaultEffects(args, world);
  }

  lemma ExtendWrites(world: State, args: Args)
    requires PredictedCall(world, "extend_arm", args)
    ensures Builtin(world, "extend_arm", args) ==
            Some(Undeclared("extend_arm", args) + ExpectedEffects(EXTEND_ARM, args, world))
  {
    hide EffectsOf, Lookup, Format, ValidArgs, ExpectedEffects;
    ExtendEffects(args, world);
    ArmFieldsDiffer(ArmOf(args));
    assert Builtin(world, "extend_arm", args).value ==
           Undeclared("extend_arm", args) + ExpectedEffects(EXTEND_ARM, args, world);
  }

  lemma BuiltinWrites(world: State, skill: string, args: Args)
    requires PredictedCall(world, skill, args)
    ensures Builtin(world, skill, args) ==
            Some(Undeclared(skill, args) + ExpectedEffects(Lookup(DEFAULTS, skill).value, args, world))
  {
    hide Builtin, ExpectedEffects, Lookup, ValidArgs;
    DefaultLookup(skill);
    if skill == "move_agv" {
      MoveWrites(world, args);
    } else if skill == "set_lift" {
      LiftWrites(world, args);
    } else if skill == "set_head" {
      HeadWrites(world, args);
    } else if skill == "extend_arm" {
      ExtendWrites(world, args);
    } else {
      RetractWrites(world, args);
    }
  }

  /** The undeclared writes change nothing in this world. */
  predicate NothingUndeclared(world: State, skill: string, args: Args) {
    var extra := Undeclared(skill, args);
    forall k :: k in extra ==> Raw(world, k) == extra[k]
  }

  lemma UndeclaredIsApart(world: State, skill: string, args: Args)
    requires PredictedCall(world, skill, args)
    ensures Undeclared(skill, args).Keys !! ExpectedEffects(Lookup(DEFAULTS, skill).value, args, world).Keys
  {
    hide EffectsOf, Lookup, Format, ValidArgs;
    DefaultLookup(skill);
    DefaultEffects(args, world);
    ArmFieldsDiffer(ArmOf(args));
  }

  /** A fault-free command of a built-in skill is always acknowledged, and leaves exactly the
      world its contract declares if and only if, when motion is inhibited, the declared
      effect was nothing new, and otherwise the undeclared writes were nothing new: the AGV
      was at rest before `move_agv`, the arm was ready before `extend_arm`. */
  lemma ContractRealisedExactly(sensors: Sensors, world: State, skill: string, args: Args)
    requires skill !in sensors.handlers && PredictedCall(world, skill, args)
    ensures var (ok, next) := Transition(sensors, world, skill, args);
            && ok && next == world.(vals := next.vals)
            && (next.vals == Declared(world, skill, args).vals <==>
                  if Inhibited(world, skill) then Declared(world, skill, args).vals == world.vals
                  else NothingUndeclared(world, skill, args))
  {
    hide Builtin, ExpectedEffects, Lookup, ValidArgs, Undeclared, Inhibited, Copy;
    DefaultLookup(skill);
    if !Inhibited(world, skill) {
      BuiltinWrites(world, skill, args);
      UndeclaredIsApart(world, skill, args);
      var extra, effects := Undeclared(skill, args), ExpectedEffects(Lookup(DEFAULTS, skill).value, args, world);
      var next, declared := Copy(world, extra + effects), Copy(world, effects);
      assert Transition(sensors, world, skill, args) == (true, next);
      if NothingUndeclared(world, skill, args) {
        SameValues(next, declared);
      } else {
        var k :| k in extra && Raw(world, k) != extra[k];
        assert Raw(next, k) == extra[k] && Raw(declared, k) == Raw(world, k);
      }
    }
  }

  // ---- What the mock says it can do -----------------------------------------------------------------------

  lemma {:induction false} NoSemantics(semantics: seq<Semantics>, skill: string)
    requires forall sem :: sem in semantics ==> sem.skill != skill
    ensures FirstFor(semantics, skill).None?
  {
    if semantics != [] { NoSemantics(semantics[1..], skill); }
  }

  lemma DefaultsWriteStateFields(skill: string, args: Args, world: State, k: string)
    requires PredictedCall(world, skill, args)
    requires k in ExpectedEffects(Lookup(DEFAULTS, skill).value, args, world)
    ensures k in STATE_FIELDS
  {
    hide EffectsOf, Lookup, Format, ValidArgs, ExpectedValue;
    DefaultLookup(skill);
    DefaultEffects(args, world);
    if skill == "retract_arm" {
      ArmChosen(RETRACT_ARM, args);
      ArmFields(args);
    } else if skill == "extend_arm" {
      ArmChosen(EXTEND_ARM, args);
      ArmFields(args);
    }
  }

  /** The capabilities the mock reports admit a call of a built-in skill exactly when none of
      its effects is on a field hidden for good, unless semantics were registered for it. */
  lemma ReportedAdmitsExactly(sensors: Sensors, semantics: seq<Semantics>, m: Hidden, step: Step, world: State)
    requires PredictedCall(world, step.skill, step.arguments)
    requires forall sem :: sem in semantics ==> sem.skill != step.skill
    ensures var sk := Lookup(DEFAULTS, step.skill).value;
            var effects := ExpectedEffects(sk, step.arguments, world);
            BackendAccepts(Reported(sensors, semantics, m), sk, step, effects) <==>
            forall k :: k in effects ==> k in sensors.model.hidden ==> k in sensors.model.refreshable
  {
    hide ExpectedEffects, Lookup, ValidArgs;
    var effects := ExpectedEffects(Lookup(DEFAULTS, step.skill).value, step.arguments, world);
    DefaultLookup(step.skill);
    NoSemantics(semantics, step.skill);
    forall k | k in effects ensures k in STATE_FIELDS {
      DefaultsWriteStateFields(step.skill, step.arguments, world, k);
    }
  }

  lemma EffectsAreForeseen(sk: Skill, step: Step, s: State)
    requires Lookup(DEFAULTS, step.skill) == Some(sk) && ContractMet(DEFAULTS, s, step.skill, step.arguments)
    ensures WellFormed(sk)
    ensures forall k :: k in ExpectedEffects(sk, step.arguments, s) ==>
              ExpectedEffects(sk, step.arguments, s)[k].Some?
  {
    hide Lookup, WellFormed;
    assert Knows(DEFAULTS, step.skill);
    DefaultLookup(step.skill);
    ArmsWellFormed();
    MotionsWellFormed();
  }

  // ---- Worlds in which contracts are honoured -----------------------------------------------------------

  predicate IsFlag(v: Option<Value>) { v.None? || v.value.Bool? }

  /** The arm flags have their declared type and the AGV is at rest. */
  predicate Orderly(world: State) {
    && IsFlag(Raw(world, LEFT_SAFE)) && IsFlag(Raw(world, RIGHT_SAFE))
    && IsFlag(Raw(world, LEFT_READY)) && IsFlag(Raw(world, RIGHT_READY))
    && Raw(world, MOVING) == Some(Bool(false))
  }

  lemma ArmFields(args: Args)
    requires ArmOf(args) == "left" || ArmOf(args) == "right"
    ensures ArmOf(args) + "_arm_ready" == LEFT_READY || ArmOf(args) + "_arm_ready" == RIGHT_READY
    ensures ArmOf(args) + "_arm_safe" == LEFT_SAFE || ArmOf(args) + "_arm_safe" == RIGHT_SAFE
  {
  }

  lemma FlagDemanded(world: State, args: Args, p: Predicate)
    requires p.expected == Bool(true) && Demanded(world, args, p)
    requires IsFlag(Raw(world, Format(p.field, args)))
    ensures Raw(world, Format(p.field, args)) == Some(Bool(true))
  {
  }

  lemma ArmsAreSafe(world: State, skill: string, args: Args)
    requires ContractMet(DEFAULTS, world, skill, args) && Orderly(world)
    ensures !Inhibited(world, skill)
  {
    hide EffectsOf, Lookup, Format, ValidArgs;
    DefaultLookup(skill);
    if skill == "move_agv" || skill == "set_lift" {
      var sk := Lookup(DEFAULTS, skill).value;
      LiteralFormat(LEFT_SAFE, args);
      LiteralFormat(RIGHT_SAFE, args);
      assert sk.preconditions[1] in sk.preconditions && sk.preconditions[2] in sk.preconditions;
      FlagDemanded(world, args, sk.preconditions[1]);
      FlagDemanded(world, args, sk.preconditions[2]);
    }
  }

  lemma ArmIsReady(world: State, args: Args)
    requires ContractMet(DEFAULTS, world, "extend_arm", args) && Orderly(world)
    ensures Raw(world, ArmOf(args) + "_arm_ready") == Some(Bool(true))
  {
    hide EffectsOf, Lookup, Format, ValidArgs;
    DefaultLookup("extend_arm");
    ArmChosen(EXTEND_ARM, args);
    ArmFields(args);
    ArmFormat("_arm_ready", args);
    assert EXTEND_ARM.preconditions[0] in EXTEND_ARM.preconditions;
    FlagDemanded(world, args, EXTEND_ARM.preconditions[0]);
  }

  /** In an orderly world the mock honours every default contract that is met, and the world
      stays orderly. */
  lemma MockHonoursContracts(sensors: Sensors, world: State, skill: string, args: Args)
    requires skill !in sensors.handlers && Orderly(world)
    requires ContractMet(DEFAULTS, world, skill, args)
    ensures var (ok, next) := Transition(sensors, world, skill, args);
            ok && next == Declared(world, skill, args) && Orderly(next)
  {
    hide Transition, EffectsOf, Lookup, ValidArgs, Inhibited, Copy;
    ContractRealisedExactly(sensors, world, skill, args);
    ArmsAreSafe(world, skill, args);
    if skill == "extend_arm" { ArmIsReady(world, args); }
    StaysOrderly(world, skill, args);
  }

  lemma WritesFlags(world: State, skill: string, args: Args, k: string)
    requires PredictedCall(world, skill, args)
    requires k in ExpectedEffects(Lookup(DEFAULTS, skill).value, args, world)
    ensures k != MOVING
    ensures k in {LEFT_SAFE, RIGHT_SAFE, LEFT_READY, RIGHT_READY} ==>
              IsFlag(ExpectedEffects(Lookup(DEFAULTS, skill).value, args, world)[k])
  {
    hide EffectsOf, Lookup, Format, ValidArgs, ExpectedValue;
    DefaultLookup(skill);
    DefaultEffects(args, world);
    if skill == "retract_arm" {
      ArmChosen(RETRACT_ARM, args);
      ArmFields(args);
    } else if skill == "extend_arm" {
      ArmChosen(EXTEND_ARM, args);
      ArmFields(args);
    }
  }

  lemma StaysOrderly(world: State, skill: string, args: Args)
    requires PredictedCall(world, skill, args) && Orderly(world)
    ensures Orderly(Declared(world, skill, args))
  {
    hide ExpectedEffects, Lookup, ValidArgs;
    var effects := ExpectedEffects(Lookup(DEFAULTS, skill).value, args, world);
    var next := Declared(world, skill, args);
    assert next == Copy(world, effects);
    forall k | k in {LEFT_SAFE, RIGHT_SAFE, LEFT_READY, RIGHT_READY} ensures IsFlag(Raw(next, k)) {
      if k in effects { WritesFlags(world, skill, args, k); }
    }
    if MOVING in effects { WritesFlags(world, skill, args, MOVING); }
  }

  // ---- A mock without faults or sensor defects ------------------------------------------------------------

  /** Nothing queued, nothing permanent. */
  predicate FaultFree(m: Hidden) {
    m.permanent == map[] && forall skill :: skill in m.faults ==> m.faults[skill] == []
  }

  /** The sensors show the world: nothing hidden, overridden, stale or contradictory. */
  predicate Clear(sensors: Sensors) {
    && sensors.model.hidden == {} && sensors.model.stale == {}
    && sensors.model.overrides == map[] && sensors.model.contradictions == map[]
    && (forall skill :: skill in sensors.handlers ==> !Knows(DEFAULTS, skill))
  }

  predicate Undisturbed(m: Hidden) {
    FaultFree(m) && Orderly(m.world) && m.world.observedAt == map[]
  }

  /** The guard reads the clock within the age limit of an observation, and commands return
      within the shortest timeout. */
  ghost predicate Punctual(timing: Timing) {
    && (forall log, e :: timing.clock(log + [e], ForGuard) - timing.stamp(log) <= 5.0)
    && (forall log :: timing.elapsed(log) <= 10.0)
  }

  /** The mock's own initial world. */
  const INITIAL_WORLD := State(
    map[LEFT_READY := Bool(true), RIGHT_READY := Bool(true), LEFT_SAFE := Bool(true), RIGHT_SAFE := Bool(true),
        "agv_ready" := Bool(true), MOVING := Bool(false), POSITION := Float(0.0),
        "lift_ready" := Bool(true), LIFT := Float(100.0),
        "head_ready" := Bool(true), YAW := Float(0.0), PITCH := Float(0.0), EMERGENCY := Bool(false)],
    {}, map[], {}, map[], At(0.0))

  lemma NewMockIsUndisturbed()
    ensures Undisturbed(Hidden(INITIAL_WORLD, map[], map[], map[]))
    ensures Clear(Sensors(ObservationModel({}, {}, map[], {}, map[], map[]), map[]))
  {
  }

  lemma ClearLook(sensors: Sensors, m: Hidden, stamp: Stamp)
    requires Clear(sensors) && m.world.observedAt == map[]
    ensures var s := Observe(sensors, m, stamp);
            && Truthful(s, m.world, m.world.active)
            && forall f :: StampOf(s, f) == stamp
  {
    hide Unavailable;
    assert SensorChanges(sensors, m) == map[];
    var observed := Copy(m.world.(timestamp := stamp), map[]);
    SameValues(observed, m.world);
  }

  lemma NoFaultPending(m: Hidden, skill: string)
    requires FaultFree(m)
    ensures NextFault(m, skill).None? && PopFault(m, skill) == m
  {
  }

  /** The mock and its abstract counterpart after the same log. */
  predicate InStep(h: Hidden, world: State) {
    Undisturbed(h) && h.world == world
  }

  lemma CommandInStep(sensors: Sensors, h: Hidden, skill: string, args: Args)
    requires Clear(sensors) && Undisturbed(h) && ContractMet(DEFAULTS, h.world, skill, args)
    ensures var (ok, late, next) := Command(sensors, h, skill, args);
            ok && !late && InStep(next, Declared(h.world, skill, args))
  {
    hide Transition, ContractMet, Orderly, Copy, Lookup;
    NoFaultPending(h, skill);
    KnownWhenMet(h.world, skill, args);
    MockHonoursContracts(sensors, h.world, skill, args);
    DeclaredKeepsEvidence(h.world, skill, args);
  }

  lemma KnownWhenMet(world: State, skill: string, args: Args)
    requires ContractMet(DEFAULTS, world, skill, args)
    ensures Knows(DEFAULTS, skill)
  {
  }

  lemma DeclaredKeepsEvidence(world: State, skill: string, args: Args)
    ensures var next := Declared(world, skill, args); next == world.(vals := next.vals)
  {
  }

  lemma {:induction false} StaysInStep(sensors: Sensors, m: Hidden, log: Log)
    requires Clear(sensors) && Undisturbed(m) && Proper(DEFAULTS, m.world, log)
    ensures InStep(HiddenAfter(sensors, m, log), World(DEFAULTS, m.world, log))
    ensures World(DEFAULTS, m.world, log).active == m.world.active
  {
    hide Command, ContractMet, Lookup, Orderly, ExpectedEffects, Copy;
    if log != [] {
      var prior, e := log[..|log| - 1], log[|log| - 1];
      StaysInStep(sensors, m, prior);
      var h := HiddenAfter(sensors, m, prior);
      match e
      case Commanded(skill, args, _) =>
        KnownWhenMet(h.world, skill, args);
        CommandInStep(sensors, h, skill, args);
        DeclaredKeepsEvidence(h.world, skill, args);
        assert World(DEFAULTS, m.world, log) == Declared(h.world, skill, args);
      case _ =>
    }
  }

  lemma DefaultLimits(sk: Skill, p: Predicate)
    requires sk in DEFAULTS
    ensures 10.0 <= sk.timeout
    ensures p in sk.preconditions ==> p.maxAge == MAX_AGE
  {
  }

  lemma PunctualIsTimely(s: State, stamp: real, now: real)
    requires now - stamp <= 5.0 && forall f :: StampOf(s, f) == At(stamp)
    ensures Timely(DEFAULTS, s, now)
  {
    forall sk, p, f: string | sk in DEFAULTS && p in sk.preconditions
      ensures InAge(StampOf(s, f), p.maxAge, now)
    {
      DefaultLimits(sk, p);
      assert StampOf(s, f) == At(stamp);
    }
  }

  function ClearMock(config: Config, flags: Flags, sensors: Sensors, m: Hidden, timing: Timing,
                     caps: Capabilities): Setup {
    MockSetup(config.(reg := DEFAULTS), flags, sensors, m, timing, caps)
  }

  /** The undisturbed mock is a faithful backend for the default registry. */
  lemma MockIsFaithful(config: Config, flags: Flags, sensors: Sensors, m: Hidden, timing: Timing, caps: Capabilities)
    requires Clear(sensors) && Undisturbed(m) && Punctual(timing)
    ensures Faithful(ClearMock(config, flags, sensors, m, timing, caps), m.world)
  {
    hide Observe, HiddenAfter, World, Proper, ContractMet, Command, Timely, Overlay, Orderly;
    var x := ClearMock(config, flags, sensors, m, timing, caps);
    var w := m.world;
    forall log | Proper(DEFAULTS, w, log)
      ensures Truthful(x.backend.observe(log), World(DEFAULTS, w, log), w.active)
    {
      StaysInStep(sensors, m, log);
      ClearLook(sensors, HiddenAfter(sensors, m, log), At(timing.stamp(log)));
    }
    forall log, fields | Proper(DEFAULTS, w, log)
      ensures Truthful(x.backend.acquire(log, fields), World(DEFAULTS, w, log), w.active)
    {
      StaysInStep(sensors, m, log);
      ClearLook(sensors, Bump(HiddenAfter(sensors, m, log), fields), At(timing.stamp(log)));
    }
    forall log, last: Option<string> | Proper(DEFAULTS, w, log)
      ensures var s := Overlay(x.backend.observe(log), last);
              Timely(DEFAULTS, s, x.backend.clock(log + [Observed(s)], ForGuard))
    {
      StaysInStep(sensors, m, log);
      ClearLook(sensors, HiddenAfter(sensors, m, log), At(timing.stamp(log)));
      OverlayStamps(x.backend.observe(log), last);
      var s := Overlay(x.backend.observe(log), last);
      PunctualIsTimely(s, timing.stamp(log), timing.clock(log + [Observed(s)], ForGuard));
    }
    forall log, skill, args | Proper(DEFAULTS, w, log) && ContractMet(DEFAULTS, World(DEFAULTS, w, log), skill, args)
      ensures Prompt(DEFAULTS, skill, x.backend.command(log, skill, args))
    {
      StaysInStep(sensors, m, log);
      CommandInStep(sensors, HiddenAfter(sensors, m, log), skill, args);
      if Knows(DEFAULTS, skill) {
        var sk := Lookup(DEFAULTS, skill).value;
        if sk.preconditions != [] { DefaultLimits(sk, sk.preconditions[0]); }
        LimitOf(sk);
      }
    }
  }

  lemma LimitOf(sk: Skill)
    requires sk in DEFAULTS
    ensures 10.0 <= sk.timeout
  {
    DefaultLimits(sk, Flag("", ""));
  }

  lemma OverlayStamps(s: State, last: Option<string>)
    ensures forall f :: StampOf(Overlay(s, last), f) == StampOf(s, f)
  {
  }

  // ---- Grounded plans of built-in skills --------------------------------------------------------------------

  lemma DefaultsHaveSingleWriters(step: Step)
    requires Callable(DEFAULTS, step)
    ensures SingleWriters(Lookup(DEFAULTS, step.skill).value, step.arguments)
    ensures WellFormed(Lookup(DEFAULTS, step.skill).value)
  {
    hide Lookup, Format, ValidArgs, WellFormed;
    var args := step.arguments;
    DefaultLookup(step.skill);
    ArmsWellFormed();
    MotionsWellFormed();
    ArmFormat("_arm_safe", args);
    ArmFormat("_arm_ready", args);
    ArmFieldsDiffer(ArmOf(args));
    LiteralFormat(YAW, args);
    LiteralFormat(PITCH, args);
  }

  lemma DefaultsArePredictable(caps: Option<Capabilities>, now: real, steps: seq<Step>, s: State)
    requires EachStepGrounded(DEFAULTS, caps, now, steps, s)
    ensures EachPredictable(DEFAULTS, steps, s)
  {
    hide StepGrounded, Predictable, Callable, SingleWriters, WellFormed, Lookup;
    forall i | 0 <= i < |steps| ensures Predictable(DEFAULTS, steps[i], SimAt(DEFAULTS, steps, s, i)) {
      var sim := SimAt(DEFAULTS, steps, s, i);
      assert StepGrounded(DEFAULTS, caps, now, steps[i], sim);
      GroundedStepPredicts(DEFAULTS, caps, now, steps[i], sim);
      DefaultsHaveSingleWriters(steps[i]);
      GroundedIsPredictable(DEFAULTS, caps, now, steps[i], sim);
    }
  }

  /** From launch to hidden truth. Let preflight launch a plan of built-in skills on an
      undisturbed mock, as given or repaired. Then the run succeeds, sends the launched steps
      in order and nothing else, and the hidden world passes through the simulated states. */
  lemma LaunchMovesTheMock(config: Config, flags: Flags, sensors: Sensors, m: Hidden, timing: Timing,
                           caps: Capabilities, plan: Plan)
    requires Clear(sensors) && Undisturbed(m) && Punctual(timing)
    requires flags.groundPlan && plan.metadata.goals.None?
    requires Start(ClearMock(config, flags, sensors, m, timing, caps), plan, [], None).mode.Outer?
    ensures var x := ClearMock(config, flags, sensors, m, timing, caps);
            var steps := Start(x, plan, [], None).plan.steps;
            var n := |steps|;
            var c := After(x, plan, [], None, 2 * n + 1);
            && c.mode == Final(true) && Sent(0, c.log) == Calls(steps)
            && forall i :: 0 <= i <= n ==>
                 HiddenAfter(sensors, m, After(x, plan, [], None, 2 * i).log).world.vals ==
                 SimAt(DEFAULTS, steps, m.world, i).vals
  {
    hide Start, After, Faithful, EachPredictable, EachStepGrounded, ProjectedGoals, OnTrack, SimAt, Sent, HiddenAfter,
         World, Observe, Orderly, Truthful;
    var x := ClearMock(config, flags, sensors, m, timing, caps);
    MockIsFaithful(config, flags, sensors, m, timing, caps);
    DefaultNames();
    NothingSentYet(m.world);
    var t, at := LaunchClears(x, m.world, plan, [], None);
    var steps := Start(x, plan, [], None).plan.steps;
    DefaultsArePredictable(x.Caps(), at, steps, t);
    PredictableReadsValues(DEFAULTS, steps, t, m.world);
    LaunchedPlanExecutes(x, m.world, plan, [], None);
    LaunchMeansSuccess(x, m.world, plan, [], None);
    forall i | 0 <= i <= |steps|
      ensures HiddenAfter(sensors, m, After(x, plan, [], None, 2 * i).log).world.vals ==
              SimAt(DEFAULTS, steps, m.world, i).vals
    {
      StaysInStep(sensors, m, After(x, plan, [], None, 2 * i).log);
    }
  }

  lemma NothingSentYet(w: State)
    ensures World(DEFAULTS, w, []) == w && Proper(DEFAULTS, w, [])
  {
  }
}
