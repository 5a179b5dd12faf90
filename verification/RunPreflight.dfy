/** Exactly what preflight does: how often it asks for evidence, and what it launches. */
module RunPreflight {
  import opened Values
  import opened RobotState
  import opened Skills
  import opened Registry
  import opened Capability
  import opened Grounder
  import opened GrounderStops
  import opened GrounderIssues
  import opened Repairer
  import opened Executor
  import opened Transitions

  /** A preflight: what it starts from, and the sets of fields it asks for, one after the other. */
  datatype Episode = Episode(plan: Plan, log: Log, last: Option<string>, asked: seq<set<string>>)

  /** The evidence after `j` acquisitions. */
  function StateAt(x: Setup, p: Episode, j: nat): State
    requires j <= |p.asked|
    decreases j, 1
  {
    if j == 0 then Overlay(x.backend.observe(p.log), p.last)
    else Overlay(x.backend.acquire(LogAt(x, p, j - 1), p.asked[j - 1]), p.last)
  }

  function LogAt(x: Setup, p: Episode, j: nat): Log
    requires j <= |p.asked|
    decreases j, 2
  {
    if j == 0 then p.log + [Observed(StateAt(x, p, 0))]
    else LogAt(x, p, j - 1) + [Acquired(p.asked[j - 1], StateAt(x, p, j))]
  }

  /** The plan with goals, as the first look projects them. */
  function Goaled(x: Setup, p: Episode): Plan {
    WithGoalState(x.Reg(), p.plan, StateAt(x, p.(asked := []), 0))
  }

  function ReportAt(x: Setup, p: Episode, j: nat): Report
    requires j <= |p.asked|
  {
    Ground(x.Reg(), x.Caps(), x.backend.clock(LogAt(x, p, j), ForGround), Goaled(x, p), StateAt(x, p, j))
  }

  ghost predicate AskedAt(x: Setup, p: Episode, j: nat, field: string)
    requires j <= |p.asked|
  {
    field != "" && field in x.backend.capabilities.refreshable &&
    exists k :: 0 <= k < |Goaled(x, p).steps| &&
      Wanting(x.Reg(), x.Caps(), x.backend.clock(LogAt(x, p, j), ForGround), Goaled(x, p).steps,
              StateAt(x, p, j), k, field)
  }

  /** The report leaves room for hope, and flag, budget and backend for evidence. */
  ghost predicate AsksAgain(x: Setup, p: Episode, j: nat)
    requires j <= |p.asked|
  {
    && !ReportAt(x, p, j).valid && !ReportAt(x, p, j).RequiresStop()
    && x.flags.activeObservation && j < x.config.maxObservations
    && exists field :: AskedAt(x, p, j, field)
  }

  /** It asks as long as it may, each time for exactly the fields worth asking for. */
  ghost predicate Asks(x: Setup, p: Episode) {
    && (forall j :: 0 <= j < |p.asked| ==>
          AsksAgain(x, p, j) && forall field :: field in p.asked[j] <==> AskedAt(x, p, j, field))
    && !AsksAgain(x, p, |p.asked|)
  }

  /** Every repairable issue is of a step whose contract allows repair. */
  predicate AllowsRepair(x: Setup, p: Episode) {
    && x.flags.allowRepair
    && forall i :: i in ReportAt(x, p, |p.asked|).issues && i.repairable ==>
         Permits(x.Reg(), Goaled(x, p).steps, i.stepId, "repair")
  }

  function RepairedAt(x: Setup, p: Episode): Option<Plan> {
    var log := LogAt(x, p, |p.asked|);
    Repair(x.Reg(), x.config.limits, x.backend.clock(log, ForRepair), Goaled(x, p), StateAt(x, p, |p.asked|), false)
  }

  predicate RepairGrounds(x: Setup, p: Episode) {
    RepairedAt(x, p).Some? &&
    var log := LogAt(x, p, |p.asked|);
    Ground(x.Reg(), x.Caps(), x.backend.clock(log, ForReground), RepairedAt(x, p).value,
           StateAt(x, p, |p.asked|)).valid
  }

  function Observes(n: nat): seq<Decision> { seq(n, i => OBSERVE) }

  /** How it ends: launched as given, launched repaired, or refused. */
  predicate Ended(x: Setup, p: Episode, c: Control) {
    var n := |p.asked|;
    var report := ReportAt(x, p, n);
    && c.log == LogAt(x, p, n) && c.index == 0 && c.results == [] && c.last == p.last
    && (if report.valid then
          && c.mode == Outer && c.plan == Goaled(x, p)
          && c.decisions == (if n == 0 then [EXECUTE] else Observes(n))
          && c.decision == (if n == 0 then EXECUTE else OBSERVE)
        else if !report.RequiresStop() && AllowsRepair(x, p) && RepairGrounds(x, p) then
          && c.mode == Outer && c.plan == RepairedAt(x, p).value
          && c.decisions == Observes(n) + [REPAIR] && c.decision == REPAIR
        else
          && c.mode == Final(false)
          && c.plan == (if !report.RequiresStop() && AllowsRepair(x, p) && RepairedAt(x, p).Some?
                        then RepairedAt(x, p).value else Goaled(x, p)))
  }

  lemma PermittedExact(x: Setup, plan: Plan, report: Report)
    ensures RepairPermitted(x.Reg(), plan, report) <==>
            forall i :: i in report.issues && i.repairable ==> Permits(x.Reg(), plan.steps, i.stepId, "repair")
  {
    hide PolicyForIssue, Permits;
    forall i | i in report.issues
      ensures "repair" in PolicyForIssue(x.Reg(), plan, i.stepId) <==>
              Permits(x.Reg(), plan.steps, i.stepId, "repair")
    {
      PolicyExact(x.Reg(), plan, i.stepId, "repair");
    }
  }

  /** Where the loop stands after `p.asked`. */
  predicate Standing(x: Setup, p: Episode, c: Control, s: State) {
    var n := |p.asked|;
    && c == Begin(Goaled(x, p), LogAt(x, p, n), p.last).(decisions := Observes(n))
    && s == StateAt(x, p, n)
  }

  lemma EndsAs(x: Setup, p: Episode, c: Control, s: State)
    requires Standing(x, p, c, s) && !AsksAgain(x, p, |p.asked|)
    ensures Ended(x, p, PreflightEnd(x, c, s, ReportAt(x, p, |p.asked|)))
  {
    hide Ground, Repair, StateAt, LogAt, Goaled, Report.RequiresStop, RepairPermitted, Permits;
    PermittedExact(x, Goaled(x, p), ReportAt(x, p, |p.asked|));
  }

  /** What was asked for before does not depend on what is asked for later. */
  lemma {:induction false} EarlierEvidence(x: Setup, p: Episode, more: Episode, j: nat)
    requires j <= |p.asked| <= |more.asked| && more.asked[..|p.asked|] == p.asked && more == p.(asked := more.asked)
    ensures StateAt(x, p, j) == StateAt(x, more, j) && LogAt(x, p, j) == LogAt(x, more, j)
  {
    if j > 0 {
      EarlierEvidence(x, p, more, j - 1);
      assert more.asked[j - 1] == more.asked[..|p.asked|][j - 1];
    }
  }

  lemma EarlierAsks(x: Setup, p: Episode, more: Episode, j: nat)
    requires j <= |p.asked| <= |more.asked| && more.asked[..|p.asked|] == p.asked && more == p.(asked := more.asked)
    ensures ReportAt(x, p, j) == ReportAt(x, more, j) && (AsksAgain(x, p, j) <==> AsksAgain(x, more, j))
    ensures forall field :: AskedAt(x, p, j, field) <==> AskedAt(x, more, j, field)
  {
    hide Ground, StateAt, LogAt, Wanting, Report.RequiresStop;
    EarlierEvidence(x, p, more, j);
    assert p.(asked := []) == more.(asked := []);
    assert Goaled(x, p) == Goaled(x, more);
    forall field ensures AskedAt(x, p, j, field) <==> AskedAt(x, more, j, field) { }
  }

  lemma AskedFields(x: Setup, p: Episode, field: string)
    ensures field in ObservableFields(x.Reg(), Goaled(x, p), ReportAt(x, p, |p.asked|), x.backend.capabilities) <==>
            AskedAt(x, p, |p.asked|, field)
  {
    hide Ground, StateAt, LogAt, Wanting, ObservableFields, Goaled;
    var n := |p.asked|;
    AskedExactly(x.Reg(), x.Caps(), x.backend.clock(LogAt(x, p, n), ForGround), Goaled(x, p), StateAt(x, p, n),
                 x.backend.capabilities, field);
  }

  lemma {:induction false} LoopExact(x: Setup, p: Episode, c: Control, s: State) returns (q: Episode)
    requires Standing(x, p, c, s) && |p.asked| <= x.config.maxObservations
    requires forall j :: 0 <= j < |p.asked| ==>
               AsksAgain(x, p, j) && forall field :: field in p.asked[j] <==> AskedAt(x, p, j, field)
    ensures q == p.(asked := q.asked) && Asks(x, q) && Ended(x, q, PreflightLoop(x, c, s, |p.asked|))
    decreases x.config.maxObservations - |p.asked|
  {
    hide Ground, StateAt, LogAt, Goaled, AskedAt, ObservableFields, PreflightEnd, Ended, ReportAt,
         Report.RequiresStop;
    var n := |p.asked|;
    var report := ReportAt(x, p, n);
    assert report == Ground(x.Reg(), x.Caps(), x.backend.clock(c.log, ForGround), c.plan, s) by { ReportIs(x, p, n); }
    var fields := ObservableFields(x.Reg(), c.plan, report, x.backend.capabilities);
    forall field ensures field in fields <==> AskedAt(x, p, n, field) { AskedFields(x, p, field); }
    assert fields != {} <==> exists field :: AskedAt(x, p, n, field) by {
      if field :| AskedAt(x, p, n, field) { assert field in fields; }
    }
    if AsksAgain(x, p, n) {
      var more := p.(asked := p.asked + [fields]);
      assert more.asked[..n] == p.asked;
      var t := Overlay(x.backend.acquire(c.log, fields), c.last);
      var d := Decided(c.(log := c.log + [Acquired(fields, t)]), OBSERVE);
      StandsNext(x, p, more, c, s, d, t);
      forall j | 0 <= j < n + 1
        ensures AsksAgain(x, more, j) && forall field :: field in more.asked[j] <==> AskedAt(x, more, j, field)
      {
        EarlierAsks(x, p, more, j);
        if j < n { assert more.asked[j] == p.asked[j]; }
      }
      q := LoopExact(x, more, d, t);
    } else {
      q := p;
      EndsAs(x, p, c, s);
    }
  }

  lemma ReportIs(x: Setup, p: Episode, n: nat)
    requires n <= |p.asked|
    ensures ReportAt(x, p, n) ==
            Ground(x.Reg(), x.Caps(), x.backend.clock(LogAt(x, p, n), ForGround), Goaled(x, p), StateAt(x, p, n))
  {
  }

  lemma StandsNext(x: Setup, p: Episode, more: Episode, c: Control, s: State, d: Control, t: State)
    requires Standing(x, p, c, s) && |more.asked| == |p.asked| + 1 && more.asked[..|p.asked|] == p.asked
    requires more == p.(asked := more.asked)
    requires t == Overlay(x.backend.acquire(c.log, more.asked[|p.asked|]), c.last)
    requires d == Decided(c.(log := c.log + [Acquired(more.asked[|p.asked|], t)]), OBSERVE)
    ensures Standing(x, more, d, t)
  {
    hide WithGoalState;
    var n := |p.asked|;
    EarlierEvidence(x, p, more, n);
    assert p.(asked := []) == more.(asked := []);
    assert LogAt(x, more, n) == c.log;
    assert StateAt(x, more, n + 1) == t;
    assert LogAt(x, more, n + 1) == d.log;
    assert Observes(|p.asked|) + [OBSERVE] == Observes(|p.asked| + 1);
  }

  /** Preflight. It asks for fresh evidence as long as the report is neither valid nor beyond
      repair, the flag and its budget allow, and there is a field worth asking for, each time
      for exactly those fields. Then a valid plan is launched as given; one that is not beyond
      repair, whose every repairable issue may be repaired, and whose repair grounds is launched
      repaired; any other is refused. */
  lemma PreflightExact(x: Setup, plan: Plan, log: Log, last: Option<string>) returns (p: Episode)
    requires x.flags.groundPlan
    ensures p.plan == plan && p.log == log && p.last == last && |p.asked| <= x.config.maxObservations
    ensures Asks(x, p) && Ended(x, p, Start(x, plan, log, last))
  {
    hide Ground, Asks, Ended, PreflightLoop, WithGoalState;
    p := Episode(plan, log, last, []);
    var c := Begin(plan, log, last);
    var s := Look(x, c);
    var c1 := Saw(c, s).(plan := WithGoalState(x.Reg(), plan, s));
    assert Standing(x, p, c1, s) by { assert Observes(0) == []; }
    p := LoopExact(x, p, c1, s);
    AskedWithinBudget(x, p);
  }

  lemma AskedWithinBudget(x: Setup, p: Episode)
    requires Asks(x, p)
    ensures |p.asked| <= x.config.maxObservations
  {
    if |p.asked| > 0 { assert AsksAgain(x, p, |p.asked| - 1); }
  }

  /** Without preflight every plan is launched as it is, on one look. */
  lemma UngroundedStart(x: Setup, plan: Plan, log: Log, last: Option<string>)
    requires !x.flags.groundPlan
    ensures var s := Overlay(x.backend.observe(log), last);
            Start(x, plan, log, last) ==
            Begin(WithGoalState(x.Reg(), plan, s), log + [Observed(s)], last).(decisions := [EXECUTE])
  {
  }

  // ---- Capabilities ---------------------------------------------------------------------------------------

  /** With the capability check on, a plan with a step that the backend does not declare itself
      able to deliver is refused on the first look: nothing is asked for, repaired or sent. */
  lemma UndeliverableIsRefused(x: Setup, plan: Plan, log: Log, last: Option<string>, k: nat)
    requires x.flags.groundPlan && x.flags.capabilityPreflight && k < |plan.steps|
    requires var s := Overlay(x.backend.observe(log), last);
             Undeliverable(x.Reg(), x.backend.capabilities, plan.steps[k],
                           SimSkip(x.Reg(), Some(x.backend.capabilities), plan.steps, s, k))
    ensures var s := Overlay(x.backend.observe(log), last);
            var c := Start(x, plan, log, last);
            c.mode == Final(false) && c.log == log + [Observed(s)]
  {
    hide Ground, Undeliverable, SimSkip, Asks, Start;
    var p := PreflightExact(x, plan, log, last);
    var s := Overlay(x.backend.observe(log), last);
    assert StateAt(x, p, 0) == s && StateAt(x, p.(asked := []), 0) == s;
    GoalsKeepSteps(x, plan, s);
    UndeliverableStops(x.Reg(), x.backend.capabilities,
                       x.backend.clock(LogAt(x, p, 0), ForGround), Goaled(x, p), s, k);
    assert ReportAt(x, p, 0).RequiresStop() && !ReportAt(x, p, 0).valid;
    assert p.asked == [] by { if p.asked != [] { AskingMeansHope(x, p); } }
  }

  lemma GoalsKeepSteps(x: Setup, plan: Plan, s: State)
    ensures WithGoalState(x.Reg(), plan, s).steps == plan.steps
  {
  }

  lemma AskingMeansHope(x: Setup, p: Episode)
    requires Asks(x, p) && p.asked != []
    ensures !ReportAt(x, p, 0).RequiresStop()
  {
    assert AsksAgain(x, p, 0);
  }

  /** With it off, only what can be refreshed matters of the capabilities. */
  lemma {:induction false} LoopIgnoresCapabilities(x: Setup, y: Setup, c: Control, s: State, attempts: nat)
    requires SameButCapabilities(x, y)
    ensures PreflightLoop(x, c, s, attempts) == PreflightLoop(y, c, s, attempts)
    decreases x.config.maxObservations - attempts
  {
    hide Ground, Repair, RepairPermitted, Report.RequiresStop, PolicyForIssue;
    var report := Ground(x.Reg(), x.Caps(), x.backend.clock(c.log, ForGround), c.plan, s);
    var fields := ObservableFields(x.Reg(), c.plan, report, x.backend.capabilities);
    assert fields == ObservableFields(y.Reg(), c.plan, report, y.backend.capabilities);
    if !report.valid && !report.RequiresStop() && x.flags.activeObservation &&
       attempts < x.config.maxObservations && fields != {} {
      var t := Overlay(x.backend.acquire(c.log, fields), c.last);
      LoopIgnoresCapabilities(x, y, Decided(c.(log := c.log + [Acquired(fields, t)]), OBSERVE), t, attempts + 1);
    }
  }

  ghost predicate SameButCapabilities(x: Setup, y: Setup) {
    && !x.flags.capabilityPreflight && y == x.(backend := y.backend)
    && y.backend == x.backend.(capabilities := y.backend.capabilities)
    && y.backend.capabilities.refreshable == x.backend.capabilities.refreshable
  }

  lemma CapabilitiesIgnored(x: Setup, y: Setup, plan: Plan, log: Log, last: Option<string>)
    requires SameButCapabilities(x, y)
    ensures Start(x, plan, log, last) == Start(y, plan, log, last)
  {
    hide PreflightLoop, WithGoalState;
    var c := Begin(plan, log, last);
    var s := Look(x, c);
    LoopIgnoresCapabilities(x, y, Saw(c, s).(plan := WithGoalState(x.Reg(), plan, s)), s, 0);
  }
}
