/** Epistemic robot state (`models/robot_state.py`). */
module RobotState {
  import opened Values

  datatype Status = Known | Unknown | Stale | Contradictory

  /** An ISO timestamp, or text that does not parse as one. */
  datatype Stamp = At(t: real) | Unreadable

  /** A snapshot. A field missing from `vals` is `None`: unknown, never an assumed value.
      `vals` holds the declared fields and the dynamic `facts` alike. */
  datatype State = State(
    vals: map<string, Value>,
    active: set<string>,
    observedAt: map<string, Stamp>,
    stale: set<string>,
    conflicts: map<string, seq<Option<Value>>>,
    timestamp: Stamp)

  /** Keyword changes of `copy`; `None` clears a field. */
  type Changes = map<string, Option<Value>>

  datatype Evidence = Evidence(value: Option<Value>, status: Status)

  const LAST_RESULT := "last_skill_result"
  const EMERGENCY := "emergency_stop"
  const FAULT := "fault"

  function Raw(s: State, name: string): Option<Value> {
    if name in s.vals then Some(s.vals[name]) else None
  }

  /** `copy(**changes)`: new values, old evidence. */
  function Copy(s: State, changes: Changes): (r: State)
    ensures forall k :: Raw(r, k) == if k in changes then changes[k] else Raw(s, k)
    ensures r == s.(vals := r.vals)
  {
    s.(vals := map k | k in s.vals.Keys + changes.Keys && (k in changes ==> changes[k].Some?)
                    :: if k in changes then changes[k].value else s.vals[k])
  }

  predicate Contradicted(s: State, name: string) {
    name in s.conflicts &&
    exists i, j :: 0 <= i < |s.conflicts[name]| && 0 <= j < |s.conflicts[name]| &&
                   s.conflicts[name][i] != s.conflicts[name][j]
  }

  function StampOf(s: State, name: string): Stamp {
    if name in s.observedAt then s.observedAt[name] else s.timestamp
  }

  predicate TooOld(stamp: Stamp, maxAge: Option<real>, now: real) {
    maxAge.Some? && (stamp.Unreadable? || now - stamp.t > maxAge.value)
  }

  /** Evidence no older than the limit; text that is not a time is older than any. */
  predicate InAge(stamp: Stamp, maxAge: Option<real>, now: real) {
    maxAge.Some? ==> stamp.At? && now - stamp.t <= maxAge.value
  }

  function EpistemicValue(s: State, name: string, maxAge: Option<real>, now: real): Evidence {
    var value := Raw(s, name);
    if Contradicted(s, name) then Evidence(value, Contradictory)
    else if value.None? then Evidence(None, Unknown)
    else if name in s.stale then Evidence(value, Stale)
    else if TooOld(StampOf(s, name), maxAge, now) then Evidence(value, Stale)
    else Evidence(value, Known)
  }

  /** `epistemic_value(name)` without an age limit: the clock does not matter. */
  function Epistemic(s: State, name: string): Evidence {
    EpistemicValue(s, name, None, 0.0)
  }

  /** The age of evidence. Let a field be present and untainted. Under an age limit it is known
      exactly while the limit has not passed since it was observed - the instant of the limit
      included - and stale afterwards; with a stamp that is not a time it is stale at once; and
      without a limit it does not age. A field without a stamp of its own is as old as the
      snapshot. */
  lemma EvidenceExpires(s: State, name: string, limit: real, now: real)
    requires Raw(s, name).Some? && !Tainted(s, name)
    ensures var status := EpistemicValue(s, name, Some(limit), now).status;
            match (if name in s.observedAt then s.observedAt[name] else s.timestamp)
            case At(t) => status == if now - t <= limit then Known else Stale
            case Unreadable => status == Stale
    ensures EpistemicValue(s, name, None, now).status == Known
  {
  }

  /** The status of any field, in order of precedence: reports that differ, no value, marked
      stale, out of age. */
  lemma EpistemicExact(s: State, name: string, maxAge: Option<real>, now: real)
    ensures var e := EpistemicValue(s, name, maxAge, now);
            && e.value == Raw(s, name)
            && (e.status == Contradictory <==>
                  name in s.conflicts && exists a, b :: a in s.conflicts[name] && b in s.conflicts[name] && a != b)
            && (e.status == Unknown <==> e.status != Contradictory && Raw(s, name).None?)
            && (e.status == Known <==>
                  e.status !in {Contradictory, Unknown} && name !in s.stale && InAge(StampOf(s, name), maxAge, now))
  {
    if Contradicted(s, name) {
      var reports := s.conflicts[name];
      var i, j :| 0 <= i < |reports| && 0 <= j < |reports| && reports[i] != reports[j];
      assert reports[i] in reports && reports[j] in reports;
    }
  }

  function WithObservationTime(s: State, names: set<string>, stamp: Stamp): State {
    var chosen := if names == {} then s.vals.Keys else names;
    s.(timestamp := stamp,
       observedAt := map k | k in s.observedAt.Keys + chosen
                          :: if k in chosen then stamp else s.observedAt[k])
  }

  /** Stamping evidence dates the named fields - all present ones if none are named - and the
      snapshot; every other date and every value stays. */
  lemma StampedExactly(s: State, names: set<string>, stamp: Stamp, name: string)
    ensures var r := WithObservationTime(s, names, stamp);
            && r == s.(timestamp := stamp, observedAt := r.observedAt)
            && (if name in names || (names == {} && Raw(s, name).Some?) then StampOf(r, name) == stamp
                else if name in s.observedAt then StampOf(r, name) == s.observedAt[name]
                else StampOf(r, name) == stamp)
  {
  }

  function MarkStale(s: State, names: set<string>): State {
    s.(stale := s.stale + names)
  }

  /** Evidence that must not be used: marked stale, or reported with conflicting values. */
  predicate Tainted(s: State, name: string) {
    name in s.stale || Contradicted(s, name)
  }

  /** A projection chain: `copy(**c)` for each `c`, in order. */
  function CopyAll(s: State, changes: seq<Changes>): State
    decreases |changes|
  {
    if changes == [] then s else CopyAll(Copy(s, changes[0]), changes[1..])
  }

  /** Projection never launders evidence: whatever values are written over a tainted field,
      by however many projections, it stays unusable at every age limit and clock. */
  lemma {:induction false} ProjectionNeverLaunders(
    s: State, changes: seq<Changes>, name: string, maxAge: Option<real>, now: real)
    requires Tainted(s, name)
    ensures EpistemicValue(CopyAll(s, changes), name, maxAge, now).status != Known
    decreases |changes|
  {
    if changes != [] {
      ProjectionNeverLaunders(Copy(s, changes[0]), changes[1..], name, maxAge, now);
    }
  }

  /** A field marked stale is out of use for good: no projection brings it back. */
  lemma MarkedStaysOut(s: State, names: set<string>, changes: seq<Changes>, name: string, maxAge: Option<real>,
                       now: real)
    ensures EpistemicValue(CopyAll(MarkStale(s, names), changes), name, maxAge, now).status == Known ==>
              name !in names && !Tainted(s, name)
  {
    if name in names || Tainted(s, name) {
      ProjectionNeverLaunders(MarkStale(s, names), changes, name, maxAge, now);
    }
  }

  /** ... and the only other way to lose KNOWN by projection is to clear the value, so an
      untainted field keeps the age of its old evidence: a fresh value written over an old
      one is as old as the one it replaced. */
  lemma {:induction false} ProjectionKeepsAge(
    s: State, changes: seq<Changes>, name: string, maxAge: Option<real>, now: real)
    requires !Tainted(s, name)
    ensures var r := CopyAll(s, changes);
            EpistemicValue(r, name, maxAge, now).status ==
            if Raw(r, name).None? then Unknown
            else if maxAge.None? then Known
            else match StampOf(s, name)
              case At(t) => if now - t <= maxAge.value then Known else Stale
              case Unreadable => Stale
    decreases |changes|
  {
    if changes != [] {
      ProjectionKeepsAge(Copy(s, changes[0]), changes[1..], name, maxAge, now);
    }
  }
}
