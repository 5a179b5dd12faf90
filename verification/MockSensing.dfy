/** What the mock's sensors can show, and how acquisition changes it. */
module MockSensing {
  import opened Values
  import opened RobotState
  import opened Executor
  import opened MockBackend

  predicate Blind(sensors: Sensors, m: Hidden, field: string) {
    field in sensors.model.hidden && Unavailable(sensors, m, field)
  }

  /** What a reading shows: the override, nothing, or the world. */
  function Shown(sensors: Sensors, m: Hidden, field: string): Option<Value> {
    if field in sensors.model.overrides then sensors.model.overrides[field]
    else if Blind(sensors, m, field) then None
    else Raw(m.world, field)
  }

  /** How old it is: as old as the observation, unless the field is hidden and only an
      override shows it - then as old as the world's own evidence, if that is dated. */
  function Dated(sensors: Sensors, m: Hidden, stamp: Stamp, field: string): Stamp {
    if Blind(sensors, m, field) && field in m.world.observedAt then m.world.observedAt[field] else stamp
  }

  /** What an observation reports of values, resources, conflicts and staleness. */
  lemma ObserveReads(sensors: Sensors, m: Hidden, stamp: Stamp)
    ensures var o := Observe(sensors, m, stamp);
            var changes := SensorChanges(sensors, m);
            && (forall f :: Raw(o, f) == if f in changes then changes[f] else Raw(m.world, f))
            && o.active == m.world.active && o.conflicts == sensors.model.contradictions
            && o.stale == set n | n in sensors.model.stale && Unavailable(sensors, m, n)
  {
    hide SensorChanges, Unavailable;
  }

  predicate Disputed(sensors: Sensors, field: string) {
    var reports := sensors.model.contradictions;
    field in reports &&
    exists i, j :: 0 <= i < |reports[field]| && 0 <= j < |reports[field]| && reports[field][i] != reports[field][j]
  }

  /** The evidence of a mock observation, field by field: contradictory when the reports
      differ, unknown when nothing is shown, stale when marked so or too old, else known. */
  lemma EvidenceExact(sensors: Sensors, m: Hidden, stamp: Stamp, field: string, maxAge: Option<real>, now: real)
    requires field != "active_resources"
    ensures var e := EpistemicValue(Observe(sensors, m, stamp), field, maxAge, now);
            var value := Shown(sensors, m, field);
            && e.value == value
            && e.status ==
               if Disputed(sensors, field) then Contradictory
               else if value.None? then Unknown
               else if field in sensors.model.stale && Unavailable(sensors, m, field) then Stale
               else if InAge(Dated(sensors, m, stamp, field), maxAge, now) then Known
               else Stale
  {
    hide Unavailable;
    var o := Observe(sensors, m, stamp);
    assert Raw(o, field) == Shown(sensors, m, field);
    assert o.conflicts == sensors.model.contradictions;
    assert Contradicted(o, field) == Disputed(sensors, field);
    if Raw(o, field).Some? {
      assert StampOf(o, field) == Dated(sensors, m, stamp, field);
    }
  }

  /** How often the log asks for the field. */
  function Asked(log: Log, field: string): nat {
    if log == [] then 0
    else
      Asked(log[..|log| - 1], field) +
      match log[|log| - 1]
      case Acquired(fields, _) => if field in fields then 1 else 0
      case _ => 0
  }

  lemma {:induction false} TriesCount(sensors: Sensors, m: Hidden, log: Log, field: string)
    ensures Tries(HiddenAfter(sensors, m, log), field) == Tries(m, field) + Asked(log, field)
  {
    hide Transition;
    if log != [] {
      TriesCount(sensors, m, log[..|log| - 1], field);
      TriesOnce(sensors, HiddenAfter(sensors, m, log[..|log| - 1]), log[|log| - 1], field);
    }
  }

  lemma TriesOnce(sensors: Sensors, m: Hidden, e: Event, field: string)
    ensures Tries(HiddenStep(sensors, m, e), field) ==
            Tries(m, field) + if e.Acquired? && field in e.fields then 1 else 0
  {
    hide Transition;
  }

  /** Active observation: whatever else happens, a refreshable field becomes available with
      the first acquisition beyond its configured failures and stays so, and any other field
      never does. */
  lemma AcquisitionReveals(sensors: Sensors, m: Hidden, log: Log, field: string)
    ensures var failures := sensors.model.refreshFailures;
            Unavailable(sensors, HiddenAfter(sensors, m, log), field) <==>
              (field in sensors.model.refreshable ==>
                 Tries(m, field) + Asked(log, field) <= if field in failures then failures[field] else 0)
  {
    TriesCount(sensors, m, log, field);
  }
}
