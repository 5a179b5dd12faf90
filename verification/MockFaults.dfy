/** When injected faults strike. */
module MockFaults {
  import opened Values
  import opened RobotState
  import opened Templates
  import opened Skills
  import opened Capability
  import opened Executor
  import opened Transitions
  import opened RunDecisions
  import opened MockBackend
  import opened MockTruth

  /** The event is a command of the skill; stopping the backend is one of `safe_stop`. */
  predicate Sends(e: Event, skill: string) {
    (e.Commanded? && e.skill == skill) || (e.Stopped? && skill == "safe_stop")
  }

  function CountSent(log: Log, skill: string): nat {
    if log == [] then 0
    else CountSent(log[..|log| - 1], skill) + if Sends(log[|log| - 1], skill) then 1 else 0
  }

  /** What is left of a queue after `k` commands. */
  function Remaining(queue: seq<Fault>, k: nat): seq<Fault> { if k <= |queue| then queue[k..] else [] }

  lemma EventTakesOne(sensors: Sensors, m: Hidden, e: Event, skill: string)
    ensures var h := HiddenStep(sensors, m, e);
            && h.permanent == m.permanent
            && Queue(h, skill) == Remaining(Queue(m, skill), if Sends(e, skill) then 1 else 0)
  {
    hide Transition;
  }

  lemma {:induction false} QueueShrinks(sensors: Sensors, m: Hidden, log: Log, skill: string)
    ensures var h := HiddenAfter(sensors, m, log);
            && h.permanent == m.permanent
            && Queue(h, skill) == Remaining(Queue(m, skill), CountSent(log, skill))
  {
    hide HiddenStep;
    if log != [] {
      QueueShrinks(sensors, m, log[..|log| - 1], skill);
      EventTakesOne(sensors, HiddenAfter(sensors, m, log[..|log| - 1]), log[|log| - 1], skill);
    }
  }

  /** Injected faults strike in the order they were injected, one per command of their skill,
      whatever else is sent in between; when they are used up, a permanent fault strikes every
      time, or nothing does. */
  lemma FaultsStrikeInOrder(sensors: Sensors, m: Hidden, log: Log, skill: string)
    ensures var queue, k := Queue(m, skill), CountSent(log, skill);
            NextFault(HiddenAfter(sensors, m, log), skill) ==
            if k < |queue| then Some(queue[k])
            else if skill in m.permanent then Some(m.permanent[skill])
            else None
  {
    QueueShrinks(sensors, m, log, skill);
  }

  // ---- What a fault looks like ----------------------------------------------------------------------

  /** A fault that strikes leaves exactly its drift in the world, and spends itself if it was
      queued. A time-out is reported as such, a command failure as a refusal; a physical failure
      and a drift are acknowledged like a success. */
  lemma FaultsAnswer(sensors: Sensors, m: Hidden, skill: string, args: Args, fault: Fault)
    requires NextFault(m, skill) == Some(fault)
    ensures var (accepted, timedOut, next) := Command(sensors, m, skill, args);
            && (match fault.mode
                case Timeout => !accepted && timedOut
                case CommandFailure => !accepted && !timedOut
                case PhysicalFailure => accepted && !timedOut
                case StateDrift => accepted && !timedOut)
            && (forall k :: Raw(next.world, k) == if k in fault.drift then fault.drift[k] else Raw(m.world, k))
            && next.world == m.world.(vals := next.world.vals)
            && next.permanent == m.permanent && next.attempts == m.attempts
            && forall k :: Queue(next, k) ==
                 if k == skill && Queue(m, k) != [] then Queue(m, k)[1..] else Queue(m, k)
  {
  }

  /** So an executor that does not verify outcomes takes exactly the physical failures and drifts
      for successes, if they answer in time. */
  lemma UnverifiedFaultsPass(config: Config, flags: Flags, sensors: Sensors, m: Hidden, timing: Timing,
                             caps: Capabilities, c: Control, fault: Fault)
    requires !flags.verifyOutcomes && c.mode.Inner? && timing.elapsed(c.log) <= c.mode.skill.timeout
    requires NextFault(HiddenAfter(sensors, m, c.log), c.mode.skill.name) == Some(fault)
    ensures Achieved(MockSetup(config, flags, sensors, m, timing, caps), c) <==>
            fault.mode == PhysicalFailure || fault.mode == StateDrift
  {
    hide Command, HiddenAfter, Observe;
    FaultsAnswer(sensors, HiddenAfter(sensors, m, c.log), c.mode.skill.name, c.mode.step.arguments, fault);
    AttemptExact(MockSetup(config, flags, sensors, m, timing, caps), c);
  }

  // ---- Commands that no fault strikes ------------------------------------------------------------------

  /** The capabilities promise exactly the skills whose commands, when no fault strikes, are
      acknowledged: the built-in ones and those with a handler. Any other is refused and
      changes nothing. */
  lemma SupportsExactly(sensors: Sensors, semantics: seq<Semantics>, m: Hidden, world: State, skill: string, args: Args)
    ensures Reported(sensors, semantics, m).Supports(skill) <==> Transition(sensors, world, skill, args).0
    ensures Reported(sensors, semantics, m).Supports(skill) <==>
            skill in {"retract_arm", "extend_arm", "move_agv", "set_lift", "set_head", "safe_stop"} ||
            skill in sensors.handlers
    ensures !Transition(sensors, world, skill, args).0 ==> Transition(sensors, world, skill, args).1 == world
  {
  }

  /** A handler replaces the built-in transition: its changes, and nothing else, are made. But
      even with a handler the two motions need both arms safe. */
  lemma HandlersAct(sensors: Sensors, world: State, skill: string, args: Args)
    requires skill in sensors.handlers
    ensures var next := Transition(sensors, world, skill, args).1;
            var changes := sensors.handlers[skill](world, args);
            var blocked := (skill == "move_agv" || skill == "set_lift") &&
                           (Raw(world, "left_arm_safe") != Some(Bool(true)) ||
                            Raw(world, "right_arm_safe") != Some(Bool(true)));
            && (blocked ==> next == world)
            && (!blocked ==>
                  && next == world.(vals := next.vals)
                  && forall k :: Raw(next, k) == if k in changes then changes[k] else Raw(world, k))
  {
  }
}
