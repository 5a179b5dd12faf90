/** The two motions that need both arms safe, and the arm that is in their way. */
module MockMotion {
  import opened Values
  import opened RobotState
  import opened Templates
  import opened Skills
  import opened Registry
  import opened DefaultSkills
  import opened Grounder
  import opened MockLift
  import opened MockBackend
  import opened MockContracts

  const YES := Bool(true)

  /** A plan step of one of the motions, and an arm. */
  datatype Job = Job(step: Step, arm: string)
  {
    /** The arm's flags. */
    function Safe(): string { if arm == "left" then LEFT_SAFE else RIGHT_SAFE }
    function Ready(): string { if arm == "left" then LEFT_READY else RIGHT_READY }
    function OtherSafe(): string { if arm == "left" then RIGHT_SAFE else LEFT_SAFE }

    /** The motion's contract, the flag it needs and the field it writes. */
    function Contract(): Skill { if step.skill == "set_lift" then SET_LIFT else MOVE_AGV }
    function Enabled(): string { if step.skill == "set_lift" then "lift_ready" else "agv_ready" }
    function Field(): string { if step.skill == "set_lift" then LIFT else POSITION }

    /** What it brings the field to. */
    function Target(w: State): Option<Value> {
      ExpectedValue(Contract().effects[0], step.arguments, w)
    }

    /** Its preconditions that concern the two arms. */
    function OwnArm(): nat { if arm == "left" then 1 else 2 }
  }

  /** A valid call of one of the motions, as a planner writes it. */
  predicate Motion(j: Job) {
    && (j.arm == "left" || j.arm == "right")
    && (j.step.skill == "set_lift" || j.step.skill == "move_agv")
    && ValidArgs(j.Contract(), j.step.arguments)
    && j.step.expectedEffect == [] && j.step.parallelGroup.None? && !("repair_" <= j.step.id)
  }

  function JobPlan(j: Job): Plan { Plan("motion", [j.step], "plan_1", 0, Metadata(None, false, {})) }

  lemma JobCallable(j: Job)
    requires Motion(j)
    ensures Lookup(DEFAULTS, j.step.skill) == Some(j.Contract()) && Callable(DEFAULTS, j.step)
    ensures j.Contract() in DEFAULTS
  {
    hide Lookup, ValidArgs;
    DefaultLookup(j.step.skill);
  }

  lemma JobEffects(j: Job, s: State)
    ensures ExpectedEffects(j.Contract(), j.step.arguments, s) == map[j.Field() := j.Target(s)]
  {
    hide EffectsOf;
    DefaultEffects(j.step.arguments, s);
  }

  lemma OperandIsNumber(sk: Skill, args: Args, p: Param)
    requires ValidArgs(sk, args) && p in sk.params && p.required && p.kind == TNumber
    ensures p.name in args && Num(args[p.name]).Some?
  {
    Passed(sk, args, p);
  }

  /** The target is known: a height always, a distance from a numeric position. */
  lemma JobTarget(j: Job, w: State)
    requires Motion(j)
    ensures j.step.skill == "set_lift" ==>
              "height_mm" in j.step.arguments && j.Target(w) == Some(Coerce(j.step.arguments["height_mm"]))
    ensures j.step.skill == "move_agv" && Raw(w, POSITION).Some? && Num(Raw(w, POSITION).value).Some? ==>
              j.Target(w) == Some(Float(Num(Raw(w, POSITION).value).value +
                                        FloatArgument(j.step.arguments, "distance_m")))
    ensures j.step.skill == "move_agv" && j.Target(w).Some? ==>
              Raw(w, POSITION).Some? && Num(Raw(w, POSITION).value).Some?
  {
    hide ValidArgs;
    LiteralFormat(POSITION, j.step.arguments);
    OperandIsNumber(j.Contract(), j.step.arguments, j.Contract().params[0]);
  }

  /** The three fields a motion looks at. */
  lemma JobPreconditions(j: Job)
    ensures var ps := j.Contract().preconditions;
            && |ps| == 3
            && Format(ps[0].field, j.step.arguments) == j.Enabled()
            && Format(ps[1].field, j.step.arguments) == LEFT_SAFE
            && Format(ps[2].field, j.step.arguments) == RIGHT_SAFE
            && forall p :: p in ps ==> p.expected == YES && p.maxAge == MAX_AGE
  {
    hide Format;
    LiteralFormat("lift_ready", j.step.arguments);
    LiteralFormat("agv_ready", j.step.arguments);
    LiteralFormat(LEFT_SAFE, j.step.arguments);
    LiteralFormat(RIGHT_SAFE, j.step.arguments);
  }

  /** Nothing is stopped, faulted or busy, the motion is enabled and its target known. */
  predicate Workable(j: Job, w: State) {
    && Raw(w, j.Enabled()) == Some(YES) && Raw(w, j.Ready()) == Some(YES)
    && Raw(w, EMERGENCY) != Some(YES) && NoFault(w) && w.active == {}
    && (j.step.skill == "move_agv" ==> Raw(w, POSITION).Some? && Num(Raw(w, POSITION).value).Some?)
  }

  /** ... but the arm is out, ready to be retracted. */
  predicate ArmOut(j: Job, w: State) {
    Workable(j, w) && Raw(w, j.Safe()) == Some(Bool(false)) && Raw(w, j.OtherSafe()) == Some(YES)
  }

  /** ... and both arms are safe. */
  predicate ArmsIn(j: Job, w: State) {
    Workable(j, w) && Raw(w, j.Safe()) == Some(YES) && Raw(w, j.OtherSafe()) == Some(YES)
  }

  /** The lift as such a job. */
  function LiftJob(target: real, arm: string): Job { Job(LiftStep(target), arm) }

  lemma LiftIsProper(target: real, arm: string)
    requires 0.0 <= target <= 780.0 && (arm == "left" || arm == "right")
    ensures Motion(LiftJob(target, arm))
  {
    LiftValid(target);
  }
}
