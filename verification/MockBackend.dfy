/** The deterministic mock: a hidden world behind a sensor model, with injected faults
    (`backends/mock_backend.py`), and the oracle that sees the world (`evaluation/oracle.py`). */
module MockBackend {
  import opened Values
  import opened RobotState
  import opened Templates
  import opened Registry
  import opened Capability
  import opened Executor

  datatype FaultMode = Timeout | CommandFailure | PhysicalFailure | StateDrift

  datatype Fault = Fault(mode: FaultMode, drift: Changes)

  datatype ObservationModel = ObservationModel(
    hidden: set<string>, stale: set<string>, overrides: Changes, refreshable: set<string>,
    refreshFailures: map<string, int>, contradictions: map<string, seq<Option<Value>>>)

  type Handler = (State, Args) -> Changes

  /** What does not change while the mock runs. */
  datatype Sensors = Sensors(model: ObservationModel, handlers: map<string, Handler>)

  /** The hidden world, queued and permanent faults, and acquisition attempts. */
  datatype Hidden = Hidden(world: State, faults: map<string, seq<Fault>>,
                           permanent: map<string, Fault>, attempts: map<string, nat>)

  // ---- Capabilities --------------------------------------------------------------------------

  const BUILTINS: set<string> := {"retract_arm", "extend_arm", "move_agv", "set_lift", "set_head", "safe_stop"}

  /** The declared fields of a snapshot, without the bookkeeping ones. */
  const STATE_FIELDS: set<string> :=
    {"left_arm_ready", "right_arm_ready", "left_arm_safe", "right_arm_safe", "agv_ready", "agv_moving",
     "agv_position_m", "lift_ready", "lift_height_mm", "head_ready", "head_yaw_deg", "head_pitch_deg",
     "active_resources", EMERGENCY, FAULT, LAST_RESULT}

  /** `capabilities`, with the semantics registered beside the handlers: a field is observable
      unless it is hidden and cannot be refreshed. */
  function Reported(sensors: Sensors, semantics: seq<Semantics>, m: Hidden): Capabilities {
    var model := sensors.model;
    Capabilities(Some(BUILTINS + sensors.handlers.Keys),
                 Some(STATE_FIELDS + m.world.vals.Keys - (model.hidden - model.refreshable)),
                 model.refreshable, semantics)
  }

  // ---- Observation ---------------------------------------------------------------------------

  function Tries(m: Hidden, name: string): nat { if name in m.attempts then m.attempts[name] else 0 }

  predicate Unavailable(sensors: Sensors, m: Hidden, name: string) {
    var model := sensors.model;
    name in model.refreshable ==>
      Tries(m, name) <= if name in model.refreshFailures then model.refreshFailures[name] else 0
  }

  /** Hidden fields read as None, then overrides apply. */
  function SensorChanges(sensors: Sensors, m: Hidden): Changes {
    (map n | n in sensors.model.hidden && Unavailable(sensors, m, n) :: None) + sensors.model.overrides
  }

  function Observe(sensors: Sensors, m: Hidden, stamp: Stamp): State {
    var observed := Copy(m.world.(timestamp := stamp), SensorChanges(sensors, m))
                      .(conflicts := sensors.model.contradictions);
    var visible := {"active_resources"} +
      set n | n in observed.vals && !(n in sensors.model.hidden && Unavailable(sensors, m, n));
    WithObservationTime(observed, visible, stamp)
      .(stale := set n | n in sensors.model.stale && Unavailable(sensors, m, n))
  }

  function Bump(m: Hidden, fields: set<string>): Hidden {
    m.(attempts := map n | n in m.attempts.Keys + fields ::
         if n in fields then Tries(m, n) + 1 else m.attempts[n])
  }

  // ---- Commands ------------------------------------------------------------------------------------

  predicate IsTrue(v: Option<Value>) { v == Some(Bool(true)) }

  function TextArgument(args: Args, name: string): string {
    if name in args && args[name].Str? then args[name].s else ""
  }

  function FloatArgument(args: Args, name: string): real {
    if name in args && Num(args[name]).Some? then Num(args[name]).value else 0.0
  }

  /** The built-in transitions; None for a skill the mock does not implement. */
  function Builtin(world: State, skill: string, args: Args): Option<Changes> {
    if skill == "retract_arm" || skill == "extend_arm" then
      var arm := TextArgument(args, "arm");
      Some(map[arm + "_arm_safe" := Some(Bool(skill == "retract_arm")),
               arm + "_arm_ready" := Some(Bool(true))])
    else if skill == "move_agv" then
      var pos := Raw(world, "agv_position_m");
      Some(map["agv_moving" := Some(Bool(false)),
               "agv_position_m" :=
                 if pos.None? || Num(pos.value).None? then None
                 else Some(Float(Num(pos.value).value + FloatArgument(args, "distance_m")))])
    else if skill == "set_lift" then
      Some(map["lift_height_mm" := Some(Float(FloatArgument(args, "height_mm")))])
    else if skill == "set_head" then
      Some((if "yaw_deg" in args then map["head_yaw_deg" := Some(Float(FloatArgument(args, "yaw_deg")))]
            else map[]) +
           (if "pitch_deg" in args then map["head_pitch_deg" := Some(Float(FloatArgument(args, "pitch_deg")))]
            else map[]))
    else if skill == "safe_stop" then Some(map["agv_moving" := Some(Bool(false))])
    else None
  }

  /** Motion is inhibited until both arms are transport-safe. */
  predicate Inhibited(world: State, skill: string) {
    (skill == "move_agv" || skill == "set_lift") &&
    !(IsTrue(Raw(world, "left_arm_safe")) && IsTrue(Raw(world, "right_arm_safe")))
  }

  /** What a fault-free command does; `ok` says whether the skill is implemented. */
  function Transition(sensors: Sensors, world: State, skill: string, args: Args): (r: (bool, State)) {
    if Inhibited(world, skill) then (true, world)
    else if skill in sensors.handlers then (true, Copy(world, sensors.handlers[skill](world, args)))
    else
      match Builtin(world, skill, args)
      case None => (false, world)
      case Some(changes) =>
        var next := Copy(world, changes);
        (true, if skill == "safe_stop" then next.(active := {}) else next)
  }

  /** The faults waiting for commands of a skill. */
  function Queue(m: Hidden, skill: string): seq<Fault> { if skill in m.faults then m.faults[skill] else [] }

  function NextFault(m: Hidden, skill: string): Option<Fault> {
    if skill in m.faults && m.faults[skill] != [] then Some(m.faults[skill][0])
    else if skill in m.permanent then Some(m.permanent[skill])
    else None
  }

  function PopFault(m: Hidden, skill: string): Hidden {
    if skill in m.faults && m.faults[skill] != [] then
      m.(faults := m.faults[skill := m.faults[skill][1..]])
    else m
  }

  /** `command`: queued faults first, then a permanent one, then the transition. */
  function Command(sensors: Sensors, m: Hidden, skill: string, args: Args): (bool, bool, Hidden) {
    var m1 := PopFault(m, skill);
    match NextFault(m, skill)
    case Some(fault) =>
      (fault.mode == PhysicalFailure || fault.mode == StateDrift, fault.mode == Timeout,
       m1.(world := Copy(m1.world, fault.drift)))
    case None =>
      var (ok, world) := Transition(sensors, m1.world, skill, args);
      (ok, false, m1.(world := world))
  }

  // ---- The mock as a backend ------------------------------------------------------------------------

  /** When observations are stamped, when the clock is read, how long commands take. */
  datatype Timing = Timing(stamp: Log -> real, clock: (Log, Reading) -> real, elapsed: Log -> real)

  function HiddenStep(sensors: Sensors, m: Hidden, e: Event): Hidden {
    match e
    case Observed(_) => m
    case Acquired(fields, _) => Bump(m, fields)
    case Commanded(skill, args, _) => Command(sensors, m, skill, args).2
    case Stopped => Command(sensors, m, "safe_stop", map[]).2
  }

  /** The mock after everything the log records. */
  function HiddenAfter(sensors: Sensors, m: Hidden, log: Log): Hidden {
    if log == [] then m
    else HiddenStep(sensors, HiddenAfter(sensors, m, log[..|log| - 1]), log[|log| - 1])
  }

  lemma HiddenOne(sensors: Sensors, m: Hidden, log: Log, e: Event)
    ensures HiddenAfter(sensors, m, log + [e]) == HiddenStep(sensors, HiddenAfter(sensors, m, log), e)
  {
    assert (log + [e])[..|log|] == log;
  }

  function AsBackend(sensors: Sensors, m: Hidden, timing: Timing, caps: Capabilities): Backend {
    Backend(
      (log: Log) => Observe(sensors, HiddenAfter(sensors, m, log), At(timing.stamp(log))),
      (log: Log, fields: set<string>) =>
        Observe(sensors, Bump(HiddenAfter(sensors, m, log), fields), At(timing.stamp(log))),
      (log: Log, skill: string, args: Args) =>
        var (accepted, timedOut, _) := Command(sensors, HiddenAfter(sensors, m, log), skill, args);
        Receipt(accepted, timedOut, timing.elapsed(log)),
      timing.clock,
      caps)
  }

  /** The stateful object. */
  class MockRobotBackend {
    const sensors: Sensors
    var world: State
    var faults: map<string, seq<Fault>>
    var permanent: map<string, Fault>
    var attempts: map<string, nat>
    var commandLog: seq<(string, Args)>

    constructor (sensors: Sensors, world: State)
      ensures this.sensors == sensors
      ensures Inner() == Hidden(world, map[], map[], map[]) && commandLog == []
    {
      this.sensors, this.world := sensors, world;
      faults, permanent, attempts, commandLog := map[], map[], map[], [];
    }

    /** The abstract state. */
    function Inner(): Hidden
      reads this
    {
      Hidden(world, faults, permanent, attempts)
    }

    method Inject(skill: string, events: seq<Fault>)
      modifies this
      ensures Inner() == old(Inner()).(faults := faults)
      ensures faults == old(faults)[skill :=
                (if skill in old(faults) then old(faults)[skill] else []) + events]
      ensures forall k :: Queue(Inner(), k) == Queue(old(Inner()), k) + if k == skill then events else []
      ensures commandLog == old(commandLog)
    {
      faults := faults[skill := (if skill in faults then faults[skill] else []) + events];
    }

    method ObserveState(stamp: Stamp) returns (s: State)
      ensures s == Observe(sensors, Inner(), stamp)
    {
      s := Observe(sensors, Inner(), stamp);
    }

    method AcquireFields(fields: set<string>, stamp: Stamp) returns (s: State)
      modifies this
      ensures Inner() == Bump(old(Inner()), fields) && commandLog == old(commandLog)
      ensures s == Observe(sensors, Inner(), stamp)
    {
      attempts := map n | n in attempts.Keys + fields ::
        if n in fields then Tries(Inner(), n) + 1 else attempts[n];
      s := Observe(sensors, Inner(), stamp);
    }

    method SendCommand(skill: string, args: Args) returns (accepted: bool, timedOut: bool)
      modifies this
      ensures (accepted, timedOut, Inner()) == Command(sensors, old(Inner()), skill, args)
      ensures commandLog == old(commandLog) + [(skill, args)]
    {
      commandLog := commandLog + [(skill, args)];
      var event: Option<Fault> := None;
      if skill in faults && faults[skill] != [] {
        event := Some(faults[skill][0]);
        faults := faults[skill := faults[skill][1..]];
      } else if skill in permanent {
        event := Some(permanent[skill]);
      }
      if event.Some? {
        world := Copy(world, event.value.drift);
        return event.value.mode == PhysicalFailure || event.value.mode == StateDrift,
               event.value.mode == Timeout;
      }
      var (ok, next) := Transition(sensors, world, skill, args);
      world := next;
      return ok, false;
    }
  }

  // ---- The oracle -------------------------------------------------------------------------------------

  predicate OracleAgrees(world: State, expected: Goals, tolerance: real) {
    forall g :: g in expected ==> Within(Raw(world, g.0), g.1, tolerance)
  }

  /** `BenchmarkOracle.evaluate`: mismatches of the hidden world, consulting nothing else. */
  method EvaluateOracle(world: State, expected: Goals, tolerance: real)
    returns (success: bool, mismatches: seq<string>)
    ensures success <==> OracleAgrees(world, expected, tolerance)
    ensures forall k :: k in mismatches <==>
              exists g :: g in expected && g.0 == k && !Within(Raw(world, k), g.1, tolerance)
  {
    mismatches := [];
    for i := 0 to |expected|
      invariant forall k :: k in mismatches <==>
        exists g :: g in expected[..i] && g.0 == k && !Within(Raw(world, k), g.1, tolerance)
    {
      var (field, target) := expected[i];
      assert expected[..i + 1] == expected[..i] + [expected[i]];
      if !Within(Raw(world, field), target, tolerance) {
        mismatches := mismatches + [field];
      }
    }
    assert expected[..|expected|] == expected;
    success := mismatches == [];
    assert mismatches != [] ==> mismatches[0] in mismatches;
  }
}
