/** The built-in skills in plain terms: which calls are valid, and which may run in parallel. */
module DefaultTables {
  import opened Values
  import opened RobotState
  import opened Templates
  import opened Skills
  import opened Registry
  import opened Capability
  import opened DefaultSkills
  import opened Grounder
  import opened GrounderSpec
  import opened MockContracts

  // ---- Valid calls ----------------------------------------------------------------------------------

  /** An int or a float, but no bool, within the bounds. */
  predicate Number(v: Value, low: real, high: real) {
    match v
    case Int(i) => low <= i as real <= high
    case Float(r) => low <= r <= high
    case _ => false
  }

  predicate Optional(args: Args, name: string, low: real, high: real) {
    name in args ==> Number(args[name], low, high)
  }

  lemma NumberExact(p: Param, args: Args, low: real, high: real)
    requires p.kind == TNumber && p.minimum == Some(low) && p.maximum == Some(high) && p.choices == []
    ensures ParamOk(p, args) <==>
            if p.name in args then Number(args[p.name], low, high) else !p.required
  {
  }

  /** One parameter after the other. */
  lemma ParamsExact(sk: Skill, args: Args)
    ensures ValidArgs(sk, args) <==>
            && (forall n :: n in args ==> exists i :: 0 <= i < |sk.params| && sk.params[i].name == n)
            && (forall i :: 0 <= i < |sk.params| ==> ParamOk(sk.params[i], args))
            && (sk.needsArgument ==> args != map[])
  {
    if ValidArgs(sk, args) {
      forall n | n in args ensures exists i :: 0 <= i < |sk.params| && sk.params[i].name == n {
        var p :| p in sk.params && p.name == n;
        var i :| 0 <= i < |sk.params| && sk.params[i] == p;
      }
    }
    forall n, i | n in args && 0 <= i < |sk.params| && sk.params[i].name == n ensures HasParam(sk, n) {
      assert sk.params[i] in sk.params;
    }
  }

  lemma ArmChoice(p: Param, args: Args)
    requires p == RETRACT_ARM.params[0]
    ensures ParamOk(p, args) <==> ARM in args && (args[ARM] == Str("left") || args[ARM] == Str("right"))
  {
    assert p.choices == [Str("left"), Str("right")] && Str("left") in p.choices && Str("right") in p.choices;
  }

  /** The arm skills take "left" or "right" and nothing else. */
  lemma ArmCalls(sk: Skill, args: Args)
    requires sk == RETRACT_ARM || sk == EXTEND_ARM
    ensures ValidArgs(sk, args) <==> args == map[ARM := Str("left")] || args == map[ARM := Str("right")]
  {
    hide ParamOk, ValidArgs;
    ParamsExact(sk, args);
    ArmChoice(sk.params[0], args);
    assert |sk.params| == 1;
    if ValidArgs(sk, args) { assert args.Keys == {ARM}; }
  }

  /** The lift takes a height in millimetres of 0 to 780. */
  lemma LiftCalls(args: Args)
    ensures ValidArgs(SET_LIFT, args) <==>
            args.Keys == {"height_mm"} && Number(args["height_mm"], 0.0, 780.0)
  {
    hide ParamOk, ValidArgs;
    ParamsExact(SET_LIFT, args);
    NumberExact(SET_LIFT.params[0], args, 0.0, 780.0);
    assert |SET_LIFT.params| == 1;
    if ValidArgs(SET_LIFT, args) { assert args.Keys == {"height_mm"}; }
  }

  /** The base takes a distance of up to 5 metres either way, and a speed if one is given. */
  lemma MoveCalls(args: Args)
    ensures ValidArgs(MOVE_AGV, args) <==>
            && "distance_m" in args && args.Keys <= {"distance_m", "speed_mps"}
            && Number(args["distance_m"], -5.0, 5.0) && Optional(args, "speed_mps", 0.01, 0.5)
  {
    hide ParamOk, ValidArgs;
    ParamsExact(MOVE_AGV, args);
    NumberExact(MOVE_AGV.params[0], args, -5.0, 5.0);
    NumberExact(MOVE_AGV.params[1], args, 0.01, 0.5);
    assert |MOVE_AGV.params| == 2;
  }

  /** The head takes a yaw, a pitch or both, but not neither. */
  lemma HeadCalls(args: Args)
    ensures ValidArgs(SET_HEAD, args) <==>
            && args != map[] && args.Keys <= {"yaw_deg", "pitch_deg"}
            && Optional(args, "yaw_deg", -90.0, 90.0) && Optional(args, "pitch_deg", -45.0, 20.0)
  {
    hide ParamOk, ValidArgs;
    ParamsExact(SET_HEAD, args);
    NumberExact(SET_HEAD.params[0], args, -90.0, 90.0);
    NumberExact(SET_HEAD.params[1], args, -45.0, 20.0);
    assert |SET_HEAD.params| == 2;
  }

  // ---- Parallel groups ----------------------------------------------------------------------------------

  predicate IsHead(step: Step) { step.skill == "set_head" }

  lemma DefaultClash(a: Step, b: Step)
    requires Knows(DEFAULTS, a.skill) && Knows(DEFAULTS, b.skill)
    ensures var (p, q) := (Lookup(DEFAULTS, a.skill).value, Lookup(DEFAULTS, b.skill).value);
            (p.resources * q.resources == {} && !Incompatible(p, q)) <==> IsHead(a) != IsHead(b)
  {
    hide Lookup;
    DefaultLookup(a.skill);
    DefaultLookup(b.skill);
    var p, q := Lookup(DEFAULTS, a.skill).value, Lookup(DEFAULTS, b.skill).value;
    DefaultResources(p);
    DefaultResources(q);
    BodyExact(p, q);
  }

  /** What a skill occupies, and what it keeps others from occupying. */
  lemma DefaultResources(sk: Skill)
    requires sk in DEFAULTS
    ensures sk.name == "set_head" ==> sk.resources == {"head"} && sk.incompatible == {}
    ensures sk.name == "move_agv" ==> sk.resources == {"agv"} && sk.incompatible == {"arm", "lift"}
    ensures sk.name == "set_lift" ==> sk.resources == {"lift"} && sk.incompatible == {"arm", "agv"}
    ensures sk.name == "retract_arm" || sk.name == "extend_arm" ==>
              sk.resources == {"arm"} && sk.incompatible == {"agv", "lift"}
  {
  }

  lemma BodyExact(p: Skill, q: Skill)
    ensures Incompatible(p, q) <==>
            exists r :: (r in p.resources && r in q.incompatible) || (r in q.resources && r in p.incompatible)
    ensures p.resources * q.resources == {} <==> forall r :: r in p.resources ==> r !in q.resources
  {
    var a, b, c := p.resources * q.incompatible, q.resources * p.incompatible, p.resources * q.resources;
    assert forall r :: r in a <==> r in p.resources && r in q.incompatible;
    assert forall r :: r in b <==> r in q.resources && r in p.incompatible;
    assert forall r :: r in c <==> r in p.resources && r in q.resources;
    assert a != {} <==> exists r :: r in a;
    assert b != {} <==> exists r :: r in b;
    assert c != {} <==> exists r :: r in c;
  }

  lemma HeadKeys(step: Step, s: State)
    requires Callable(DEFAULTS, step) && IsHead(step)
    ensures forall k :: k in StepEffects(DEFAULTS, step, s) ==> k == YAW || k == PITCH
  {
    hide ExpectedEffects, Lookup, ValidArgs;
    DefaultLookup(step.skill);
    DefaultEffects(step.arguments, s);
  }

  lemma OtherKeys(step: Step, s: State)
    requires Callable(DEFAULTS, step) && !IsHead(step)
    ensures forall k :: k in StepEffects(DEFAULTS, step, s) ==> k != YAW && k != PITCH
  {
    hide ExpectedEffects, Lookup, ValidArgs, ExpectedValue;
    DefaultLookup(step.skill);
    DefaultEffects(step.arguments, s);
    if step.skill == "retract_arm" || step.skill == "extend_arm" {
      ArmChosen(Lookup(DEFAULTS, step.skill).value, step.arguments);
      ArmFields(step.arguments);
    }
  }

  lemma HeadWritesHead(a: Step, b: Step, s: State)
    requires Callable(DEFAULTS, a) && Callable(DEFAULTS, b) && IsHead(a) && !IsHead(b)
    ensures EffectsAgree(DEFAULTS, s, a, b) && EffectsAgree(DEFAULTS, s, b, a)
  {
    hide StepEffects, Callable;
    HeadKeys(a, s);
    OtherKeys(b, s);
  }

  /** Two calls of built-in skills may share a parallel group exactly when one of them, and only
      one, moves the head: arms, base and lift exclude each other and themselves. */
  lemma DefaultParallelExact(a: Step, b: Step, s: State)
    requires Callable(DEFAULTS, a) && Callable(DEFAULTS, b)
    ensures Parallelizable(DEFAULTS, s, a, b) <==> (a.skill == "set_head") != (b.skill == "set_head")
  {
    hide Lookup, ValidArgs, StepEffects, Incompatible, EffectsAgree, Predictable;
    DefaultClash(a, b);
    if IsHead(a) && !IsHead(b) { HeadWritesHead(a, b, s); }
    if IsHead(b) && !IsHead(a) { HeadWritesHead(b, a, s); }
  }

  /** So the grounder refuses every plan that groups two steps otherwise. */
  lemma GroupsHoldOneMotion(caps: Option<Capabilities>, now: real, plan: Plan, s: State, i: nat, j: nat)
    requires Ground(DEFAULTS, caps, now, plan, s).valid
    requires i < j < |plan.steps| && SameGroup(plan.steps[i], plan.steps[j])
    ensures (plan.steps[i].skill == "set_head") != (plan.steps[j].skill == "set_head")
  {
    hide Ground, Parallelizable, ValidArgs;
    GroundExact(DEFAULTS, caps, now, plan, s);
    assert StepGrounded(DEFAULTS, caps, now, plan.steps[i], SimAt(DEFAULTS, plan.steps, s, i));
    assert StepGrounded(DEFAULTS, caps, now, plan.steps[j], SimAt(DEFAULTS, plan.steps, s, j));
    DefaultParallelExact(plan.steps[i], plan.steps[j], s);
  }
}
