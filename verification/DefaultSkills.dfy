/** The default registry (`skills/registry.py` and the four skill files). */
module DefaultSkills {
  import opened Values
  import opened RobotState
  import opened Templates
  import opened Skills
  import opened Registry

  const ARM := "arm"
  const LEFT_SAFE := "left_arm_safe"
  const RIGHT_SAFE := "right_arm_safe"
  const LEFT_READY := "left_arm_ready"
  const RIGHT_READY := "right_arm_ready"
  const POSITION := "agv_position_m"
  const MOVING := "agv_moving"
  const LIFT := "lift_height_mm"
  const YAW := "head_yaw_deg"
  const PITCH := "head_pitch_deg"

  const MAX_AGE := Some(5.0)
  const POLICY := ["observe", "repair", "local_retry", "replan", "safe_stop"]

  const ARM_SAFE: Template := [Hole(ARM), Lit("_arm_safe")]
  const ARM_READY: Template := [Hole(ARM), Lit("_arm_ready")]

  function Flag(field: string, code: string): Predicate {
    Predicate([Lit(field)], Bool(true), code, MAX_AGE)
  }

  function Measured(field: string, argument: string, operation: Operation, when: Option<string>): Effect {
    Effect([Lit(field)], operation, None, Some(argument), when, 0.001)
  }

  function ArmEffect(field: Template, value: bool): Effect {
    Effect(field, Assign, Some(Bool(value)), None, None, 0.001)
  }

  function ArmSkill(name: string, effects: seq<Effect>): Skill {
    Skill(name, [Param(ARM, TStr, true, None, None, [Str("left"), Str("right")])], {"arm"},
          [Predicate(ARM_READY, Bool(true), "ARM_NOT_READY", MAX_AGE)], effects,
          15.0, POLICY, {"agv", "lift"}, {}, false)
  }

  const RETRACT_ARM := ArmSkill("retract_arm", [ArmEffect(ARM_SAFE, true), ArmEffect(ARM_READY, true)])

  const EXTEND_ARM := ArmSkill("extend_arm", [ArmEffect(ARM_SAFE, false)])

  const MOVE_AGV := Skill(
    "move_agv",
    [Param("distance_m", TNumber, true, Some(-5.0), Some(5.0), []),
     Param("speed_mps", TNumber, false, Some(0.01), Some(0.5), [])],
    {"agv"},
    [Flag("agv_ready", "AGV_NOT_READY"), Flag(LEFT_SAFE, "LEFT_ARM_UNSAFE_FOR_AGV"),
     Flag(RIGHT_SAFE, "RIGHT_ARM_UNSAFE_FOR_AGV")],
    [Measured(POSITION, "distance_m", Increment, None)],
    30.0, POLICY, {"arm", "lift"}, {}, false)

  const SET_LIFT := Skill(
    "set_lift",
    [Param("height_mm", TNumber, true, Some(0.0), Some(780.0), [])],
    {"lift"},
    [Flag("lift_ready", "LIFT_NOT_READY"), Flag(LEFT_SAFE, "LEFT_ARM_UNSAFE_FOR_LIFT"),
     Flag(RIGHT_SAFE, "RIGHT_ARM_UNSAFE_FOR_LIFT")],
    [Measured(LIFT, "height_mm", Assign, None)],
    20.0, POLICY, {"agv", "arm"}, {}, false)

  const SET_HEAD := Skill(
    "set_head",
    [Param("yaw_deg", TNumber, false, Some(-90.0), Some(90.0), []),
     Param("pitch_deg", TNumber, false, Some(-45.0), Some(20.0), [])],
    {"head"},
    [Flag("head_ready", "HEAD_NOT_READY")],
    [Measured(YAW, "yaw_deg", Assign, Some("yaw_deg")), Measured(PITCH, "pitch_deg", Assign, Some("pitch_deg"))],
    10.0, POLICY, {}, {}, true)

  const DEFAULTS: Skillset := [RETRACT_ARM, EXTEND_ARM, MOVE_AGV, SET_LIFT, SET_HEAD]

  lemma LiteralFormat(name: string, args: Args)
    ensures Format([Lit(name)], args) == name
  {
    var t: Template := [Lit(name)];
    assert t[1..] == [];
  }

  function ArmOf(args: Args): string {
    if ARM in args && args[ARM].Str? then args[ARM].s else ""
  }

  lemma ArmFormat(suffix: string, args: Args)
    ensures Format([Hole(ARM), Lit(suffix)], args) == ArmOf(args) + suffix
  {
    var t: Template := [Hole(ARM), Lit(suffix)];
    assert t[1..] == [Lit(suffix)];
    LiteralFormat(suffix, args);
  }

  lemma ArmChosen(sk: Skill, args: Args)
    requires sk == RETRACT_ARM || sk == EXTEND_ARM
    requires ValidArgs(sk, args)
    ensures ArmOf(args) == "left" || ArmOf(args) == "right"
  {
    var p := sk.params[0];
    assert p in sk.params;
    assert ParamOk(p, args);
  }

  lemma OneEffect(e: Effect, args: Args, s: State)
    ensures EffectsOf([e], args, s) ==
            if Active(e, args) then map[Format(e.field, args) := ExpectedValue(e, args, s)] else map[]
  {
    var all := [e];
    assert all[..0] == [];
    assert EffectsOf(all[..0], args, s) == map[];
  }

  lemma TwoEffects(e: Effect, f: Effect, args: Args, s: State)
    ensures EffectsOf([e, f], args, s) ==
            EffectsOf([e], args, s) +
            (if Active(f, args) then map[Format(f.field, args) := ExpectedValue(f, args, s)] else map[])
  {
    var all := [e, f];
    assert all[..1] == [e];
  }

  /** What the contracts of the default registry predict. */
  lemma DefaultEffects(args: Args, s: State)
    ensures ExpectedEffects(RETRACT_ARM, args, s) ==
            map[ArmOf(args) + "_arm_safe" := Some(Bool(true)), ArmOf(args) + "_arm_ready" := Some(Bool(true))]
    ensures ExpectedEffects(EXTEND_ARM, args, s) == map[ArmOf(args) + "_arm_safe" := Some(Bool(false))]
    ensures ExpectedEffects(MOVE_AGV, args, s) == map[POSITION := ExpectedValue(MOVE_AGV.effects[0], args, s)]
    ensures ExpectedEffects(SET_LIFT, args, s) == map[LIFT := ExpectedValue(SET_LIFT.effects[0], args, s)]
    ensures ExpectedEffects(SET_HEAD, args, s) ==
            (if "yaw_deg" in args then map[YAW := Some(Coerce(args["yaw_deg"]))] else map[]) +
            (if "pitch_deg" in args then map[PITCH := Some(Coerce(args["pitch_deg"]))] else map[])
  {
    hide EffectsOf, Format;
    ArmFormat("_arm_safe", args);
    ArmFormat("_arm_ready", args);
    LiteralFormat(POSITION, args);
    LiteralFormat(LIFT, args);
    LiteralFormat(YAW, args);
    LiteralFormat(PITCH, args);
    OneEffect(RETRACT_ARM.effects[0], args, s);
    TwoEffects(RETRACT_ARM.effects[0], RETRACT_ARM.effects[1], args, s);
    OneEffect(EXTEND_ARM.effects[0], args, s);
    OneEffect(MOVE_AGV.effects[0], args, s);
    OneEffect(SET_LIFT.effects[0], args, s);
    OneEffect(SET_HEAD.effects[0], args, s);
    TwoEffects(SET_HEAD.effects[0], SET_HEAD.effects[1], args, s);
  }

  lemma DefaultLookup(name: string)
    ensures Lookup(DEFAULTS, "retract_arm") == Some(RETRACT_ARM)
    ensures Lookup(DEFAULTS, "extend_arm") == Some(EXTEND_ARM)
    ensures Lookup(DEFAULTS, "move_agv") == Some(MOVE_AGV)
    ensures Lookup(DEFAULTS, "set_lift") == Some(SET_LIFT)
    ensures Lookup(DEFAULTS, "set_head") == Some(SET_HEAD)
    ensures Knows(DEFAULTS, name) <==>
            name in {"retract_arm", "extend_arm", "move_agv", "set_lift", "set_head"}
  {
    hide Lookup, WellFormedSkillset;
    DefaultNames();
    LookupOf(DEFAULTS, RETRACT_ARM);
    LookupOf(DEFAULTS, EXTEND_ARM);
    LookupOf(DEFAULTS, MOVE_AGV);
    LookupOf(DEFAULTS, SET_LIFT);
    LookupOf(DEFAULTS, SET_HEAD);
  }

  lemma LiteralIsWellFormed(sk: Skill, name: string)
    ensures WellFormedTemplate(sk, [Lit(name)])
  {
    var t: Template := [Lit(name)];
    assert Holes(t) == {};
  }

  lemma ArmIsWellFormed(sk: Skill, suffix: string)
    requires sk == RETRACT_ARM || sk == EXTEND_ARM
    ensures WellFormedTemplate(sk, [Hole(ARM), Lit(suffix)])
  {
    var t: Template := [Hole(ARM), Lit(suffix)];
    assert sk.params[0] in sk.params;
    assert forall n :: n in Holes(t) ==> n == ARM;
  }

  lemma ArmsWellFormed()
    ensures WellFormed(RETRACT_ARM) && WellFormed(EXTEND_ARM)
  {
    ArmIsWellFormed(RETRACT_ARM, "_arm_safe");
    ArmIsWellFormed(RETRACT_ARM, "_arm_ready");
    ArmIsWellFormed(EXTEND_ARM, "_arm_safe");
    ArmIsWellFormed(EXTEND_ARM, "_arm_ready");
  }

  lemma MotionsWellFormed()
    ensures WellFormed(MOVE_AGV) && WellFormed(SET_LIFT) && WellFormed(SET_HEAD)
  {
    hide WellFormedTemplate;
    forall sk: Skill, name: string ensures WellFormedTemplate(sk, [Lit(name)]) {
      LiteralIsWellFormed(sk, name);
    }
    assert MOVE_AGV.params[0] in MOVE_AGV.params && SET_LIFT.params[0] in SET_LIFT.params;
  }

  lemma DefaultNames()
    ensures WellFormedSkillset(DEFAULTS)
  {
    hide WellFormed;
    ArmsWellFormed();
    MotionsWellFormed();
  }
}
