/** Moving the lift, and stamps on the mock. */
module MockLift {
  import opened Values
  import opened RobotState
  import opened Templates
  import opened Skills
  import opened Registry
  import opened DefaultSkills
  import opened Executor
  import opened MockBackend

  function LiftArgs(target: real): Args { map["height_mm" := Float(target)] }

  function LiftStep(target: real): Step {
    Step("s1", "set_lift", LiftArgs(target), [], None, None)
  }

  function LiftPlan(target: real): Plan {
    Plan("raise the lift", [LiftStep(target)], "plan_1", 0, Metadata(None, false, {}))
  }

  lemma LiftEffects(target: real, s: State)
    ensures ExpectedEffects(SET_LIFT, LiftArgs(target), s) == map[LIFT := Some(Float(target))]
    ensures SpecFor(SET_LIFT.effects, LiftArgs(target), LIFT) == Some(SET_LIFT.effects[0])
    ensures EffectKeys(SET_LIFT, LiftArgs(target)) == [LIFT]
  {
    LiteralFormat(LIFT, LiftArgs(target));
    assert SET_LIFT.effects[..0] == [];
    assert EffectsOf([], LiftArgs(target), s) == map[];
    assert KeysOf([], LiftArgs(target)) == [];
  }

  lemma LiftValid(target: real)
    requires 0.0 <= target <= 780.0
    ensures ValidArgs(SET_LIFT, LiftArgs(target))
  {
    assert SET_LIFT.params == [SET_LIFT.params[0]];
    assert HasParam(SET_LIFT, "height_mm") by { assert SET_LIFT.params[0] in SET_LIFT.params; }
  }

  /** Commands change values, never evidence. */
  lemma {:induction false} WorldKeepsStamps(sensors: Sensors, m: Hidden, log: Log)
    requires m.world.observedAt == map[]
    ensures HiddenAfter(sensors, m, log).world.observedAt == map[]
  {
    if log != [] {
      WorldKeepsStamps(sensors, m, log[..|log| - 1]);
      StepKeepsStamps(sensors, HiddenAfter(sensors, m, log[..|log| - 1]), log[|log| - 1]);
    }
  }

  lemma StepKeepsStamps(sensors: Sensors, m: Hidden, e: Event)
    ensures HiddenStep(sensors, m, e).world.observedAt == m.world.observedAt
  {
  }

  lemma ObserveStamps(sensors: Sensors, m: Hidden, stamp: Stamp)
    requires m.world.observedAt == map[]
    ensures forall f :: StampOf(Observe(sensors, m, stamp), f) == stamp
  {
  }
}
