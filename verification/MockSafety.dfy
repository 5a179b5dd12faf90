/** What the mock guarantees of its hidden world: motions need safe arms, and a run that fails
    leaves the robot at rest. */
module MockSafety {
  import opened Values
  import opened RobotState
  import opened Templates
  import opened Registry
  import opened Capability
  import opened DefaultSkills
  import opened Executor
  import opened Transitions
  import opened RunSafety
  import opened MockBackend
  import opened MockFaults
  import opened MockTruth

  // ---- Motions -----------------------------------------------------------------------------------

  predicate BothArmsSafe(w: State) {
    Raw(w, LEFT_SAFE) == Some(Bool(true)) && Raw(w, RIGHT_SAFE) == Some(Bool(true))
  }

  lemma ArmFlagsAreOthers(arm: string)
    ensures {arm + "_arm_safe", arm + "_arm_ready"} !! {POSITION, LIFT}
  {
    var n := |arm|;
    assert POSITION[|POSITION| - 1] == 'm' && LIFT[|LIFT| - 1] == 'm';
    assert (arm + "_arm_safe")[n + 8] == 'e' && (arm + "_arm_ready")[n + 9] == 'y';
  }

  /** A built-in command that goes through moves the base or the lift only while both arms are
      safe; while one is not, the two motions are acknowledged and change nothing. */
  lemma MotionNeedsSafeArms(sensors: Sensors, world: State, skill: string, args: Args)
    requires skill !in sensors.handlers
    ensures var (ok, next) := Transition(sensors, world, skill, args);
            && (Raw(next, POSITION) != Raw(world, POSITION) || Raw(next, LIFT) != Raw(world, LIFT) ==>
                  BothArmsSafe(world))
            && ((skill == "move_agv" || skill == "set_lift") && !BothArmsSafe(world) ==> ok && next == world)
  {
    ArmFlagsAreOthers(TextArgument(args, "arm"));
  }

  /** The fault about to strike leaves base and lift where they are. */
  predicate StillFault(m: Hidden, skill: string) {
    NextFault(m, skill).Some? ==>
      var drift := NextFault(m, skill).value.drift; POSITION !in drift && LIFT !in drift
  }

  /** So over a whole run on a mock without handlers: whatever the event, base and lift stay
      where they are in the hidden world unless both arms are safe in it. */
  lemma BaseAndLiftStay(sensors: Sensors, m: Hidden, log: Log, e: Event)
    requires sensors.handlers == map[]
    requires e.Commanded? ==> StillFault(HiddenAfter(sensors, m, log), e.skill)
    requires e.Stopped? ==> StillFault(HiddenAfter(sensors, m, log), "safe_stop")
    ensures var (before, after) := (HiddenAfter(sensors, m, log).world, HiddenAfter(sensors, m, log + [e]).world);
            !BothArmsSafe(before) ==>
              Raw(after, POSITION) == Raw(before, POSITION) && Raw(after, LIFT) == Raw(before, LIFT)
  {
    hide Transition, HiddenAfter, Copy;
    HiddenOne(sensors, m, log, e);
    var h := HiddenAfter(sensors, m, log);
    match e
    case Commanded(skill, args, _) => MotionNeedsSafeArms(sensors, h.world, skill, args);
    case Stopped => MotionNeedsSafeArms(sensors, h.world, "safe_stop", map[]);
    case _ =>
  }

  // ---- Stopping ---------------------------------------------------------------------------------------

  /** At rest, and everything but that as before. */
  predicate Rested(before: State, after: State) {
    && Raw(after, MOVING) == Some(Bool(false)) && after.active == {}
    && after == before.(vals := before.vals[MOVING := Bool(false)], active := {})
  }

  lemma StopRests(sensors: Sensors, world: State)
    requires "safe_stop" !in sensors.handlers
    ensures Transition(sensors, world, "safe_stop", map[]).0
    ensures Rested(world, Transition(sensors, world, "safe_stop", map[]).1)
  {
    var next := Copy(world, map[MOVING := Some(Bool(false))]);
    assert next.vals == world.vals[MOVING := Bool(false)];
  }

  /** Every launched run that fails leaves the mock at rest, whatever it was doing: the base does
      not move, no resource is in use, and nothing else has changed since the last event
      before the stop. Only a fault of the stop itself, or a handler in its place, could
      prevent that. */
  lemma FailedRunRests(config: Config, flags: Flags, sensors: Sensors, m: Hidden, timing: Timing, caps: Capabilities,
                       plan: Plan, last: Option<string>, n: nat)
    requires "safe_stop" !in sensors.handlers && "safe_stop" !in m.permanent && Queue(m, "safe_stop") == []
    requires var x := MockSetup(config, flags, sensors, m, timing, caps);
             Start(x, plan, [], last).mode.Outer? && After(x, plan, [], last, n).mode == Final(false)
    ensures var log := After(MockSetup(config, flags, sensors, m, timing, caps), plan, [], last, n).log;
            && log != []
            && Rested(HiddenAfter(sensors, m, log[..|log| - 1]).world, HiddenAfter(sensors, m, log).world)
  {
    hide After, Start, Transition, Rested, HiddenAfter;
    var x := MockSetup(config, flags, sensors, m, timing, caps);
    StopsExactlyOnFailure(x, plan, [], last, n);
    var log := After(x, plan, [], last, n).log;
    var before := log[..|log| - 1];
    assert log == before + [Stopped];
    FaultsStrikeInOrder(sensors, m, before, "safe_stop");
    HiddenOne(sensors, m, before, Stopped);
    StopRests(sensors, HiddenAfter(sensors, m, before).world);
  }
}
