/** The executor as the source runs it: objects that keep state, and nested loops. It follows
    the state machine of `Executor` iteration by iteration. */
module ExecutorLoops {
  import opened Values
  import opened RobotState
  import opened Templates
  import opened Skills
  import opened Registry
  import opened Grounder
  import opened GrounderLoops
  import opened Repairer
  import opened RepairerLoops
  import opened Executor

  // ---- The backend connection and the state manager ---------------------------------------------

  /** A connected backend, with the record of everything exchanged with it. */
  class Session {
    const backend: Backend
    var log: Log

    constructor (backend: Backend)
      ensures this.backend == backend && log == []
    {
      this.backend, log := backend, [];
    }

    method Record(e: Event)
      modifies this
      ensures log == old(log) + [e]
    {
      log := log + [e];
    }

    method Send(skill: string, args: Args) returns (receipt: Receipt)
      modifies this
      ensures receipt == backend.command(old(log), skill, args)
      ensures log == old(log) + [Commanded(skill, args, receipt)]
    {
      receipt := backend.command(log, skill, args);
      log := log + [Commanded(skill, args, receipt)];
    }
  }

  class StateManager {
    const session: Session
    var state: State
    var last: Option<string>

    constructor (session: Session)
      modifies session
      ensures this.session == session
      ensures state == session.backend.observe(old(session.log))
      ensures session.log == old(session.log) + [Observed(state)]
      ensures last == match Raw(state, LAST_RESULT) case Some(Str(s)) => Some(s) case _ => None
    {
      var s := session.backend.observe(session.log);
      this.session, state := session, s;
      last := match Raw(s, LAST_RESULT) case Some(Str(t)) => Some(t) case _ => None;
      new;
      session.Record(Observed(s));
    }

    method Refresh() returns (s: State)
      modifies this, session
      ensures s == state == Overlay(session.backend.observe(old(session.log)), last)
      ensures last == old(last) && session.log == old(session.log) + [Observed(s)]
    {
      state := session.backend.observe(session.log);
      if Raw(state, LAST_RESULT).None? && last.Some? {
        state := Copy(state, map[LAST_RESULT := Some(Str(last.value))]);
      }
      session.Record(Observed(state));
      s := state;
    }

    method AcquireFields(fields: set<string>) returns (s: State)
      modifies this, session
      ensures s == state == Overlay(session.backend.acquire(old(session.log), fields), last)
      ensures last == old(last) && session.log == old(session.log) + [Acquired(fields, s)]
    {
      state := session.backend.acquire(session.log, fields);
      if Raw(state, LAST_RESULT).None? && last.Some? {
        state := Copy(state, map[LAST_RESULT := Some(Str(last.value))]);
      }
      session.Record(Acquired(fields, state));
      s := state;
    }

    method MarkResult(result: string) returns (s: State)
      modifies this
      ensures last == Some(result)
      ensures s == state == Marked(old(state), result)
    {
      last := Some(result);
      state := Copy(state, map[LAST_RESULT := Some(Str(result))]);
      s := state;
    }
  }

  // ---- Iterations, branch by branch ---------------------------------------------------------------------

  lemma OuterFinishes(x: Setup, c: Control)
    requires c.mode.Outer? && c.index >= |c.plan.steps|
    ensures Advance(x, c) == Finish(x, c)
  {
  }

  lemma FinishIs(x: Setup, c: Control)
    ensures var s := Look(x, c);
            Finish(x, c) ==
            if x.flags.verifyOutcomes && !GoalsMet(c.plan, s) then Halt(Saw(c, s))
            else if x.flags.verifyOutcomes then Saw(c, s).(mode := Final(true))
            else c.(mode := Final(true))
  {
  }

  lemma OuterRejects(x: Setup, c: Control)
    requires c.mode.Outer? && c.index < |c.plan.steps| && !Callable(x.Reg(), c.plan.steps[c.index])
    ensures Advance(x, c) == Halt(c)
  {
  }

  lemma OuterEnters(x: Setup, c: Control, sk: Skill, before: State)
    requires c.mode.Outer? && c.index < |c.plan.steps| && Callable(x.Reg(), c.plan.steps[c.index])
    requires Lookup(x.Reg(), c.plan.steps[c.index].skill) == Some(sk) && before == Look(x, c)
    ensures var step := c.plan.steps[c.index];
            var c1 := Saw(c, before);
            Advance(x, c) ==
            if x.flags.runtimeGuard && !GuardAllows(sk, step, before, x.backend.clock(c1.log, ForGuard))
            then GuardFailed(x, c1, sk, before)
            else c1.(mode := Inner(step, sk, before, 1))
  {
  }

  lemma InnerEnds(x: Setup, c: Control, r: Result)
    requires c.mode.Inner? && r == Attempted(x, c).results[|c.results|]
    ensures var e := Attempted(x, c);
            && (r.achieved ==> Advance(x, c) == e.(mode := Outer, index := c.index + 1))
            && (!r.achieved && !x.flags.allowRecovery ==> Advance(x, c) == Halt(e))
            && (!r.achieved && x.flags.allowRecovery ==>
                  var mayReplan := x.config.replanner.Some? && c.replans < x.config.maxReplans;
                  Advance(x, c) ==
                  match Decide(x.config.maxRetries, c.mode.attempt, mayReplan, c.mode.skill.policy)
                  case Retry => TryAgain(x, Decided(e, LOCAL_RETRY), c.mode)
                  case Replace => TryReplan(x, Decided(e, REPLAN), c.mode)
                  case SafeStop => Halt(Decided(e, SAFE_STOP)))
  {
  }

  lemma AttemptIs(x: Setup, c: Control, receipt: Receipt, after: State, achieved: bool)
    requires c.mode.Inner?
    requires receipt == x.backend.command(c.log, c.mode.skill.name, c.mode.step.arguments)
    requires var sent := Commanded(c.mode.skill.name, c.mode.step.arguments, receipt);
             after == Overlay(x.backend.observe(c.log + [sent]), c.last)
    requires achieved == (Timed(c.mode.skill, receipt).accepted &&
               (x.flags.verifyOutcomes ==>
                  OutcomeVerified(c.mode.skill, c.mode.step.arguments, c.mode.before, after)))
    ensures var m := c.mode;
            var timed := Timed(m.skill, receipt);
            var word := if achieved then "success" else "failure";
            var sent := Commanded(m.skill.name, m.step.arguments, receipt);
            Attempted(x, c) ==
            c.(log := c.log + [sent] + [Observed(after)], last := Some(word),
               results := c.results + [Result(m.skill.name, m.step.arguments, timed.accepted, achieved,
                                              m.before, Marked(after, word), timed.timedOut, m.attempt, |c.log|)])
  {
  }

  // ---- The executor ------------------------------------------------------------------------------------------

  datatype ExecutionReport = ExecutionReport(success: bool, decision: Decision, plan: Plan,
                                             results: seq<Result>, decisions: seq<Decision>)

  function ReportOf(c: Control): ExecutionReport
    requires c.mode.Final?
  {
    ExecutionReport(c.mode.success, if c.mode.success then c.decision else STOP, c.plan, c.results, c.decisions)
  }

  /** What the handling of a refused guard leads to. */
  datatype GuardOutcome = GoOn(plan: Plan, repairs: nat, decision: Decision, decided: Decision) | GiveUp

  /** How an iteration of the step loop begins: the step may be attempted on `before`, the
      loop goes on with a changed plan or fresh evidence, or the run has stopped. */
  datatype Entry = Attemptable(skill: Skill, before: State) | Changed(to: GuardOutcome) | Refused

  /** How the attempts at one step end: achieved, to be grounded again, given up for a new
      plan, stopped, or out of turns. */
  datatype StepOutcome = Done | Reground | Switch(plan: Plan) | Fail | Pause

  class SkillExecutor {
    const config: Config
    const session: Session
    const manager: StateManager
    const repairer: PlanRepairer

    ghost predicate Valid() {
      manager.session == session && repairer.reg == config.reg && repairer.limits == config.limits
    }

    constructor (config: Config, session: Session)
      modifies session
      ensures Valid() && this.config == config && this.session == session
      ensures fresh(manager) && fresh(repairer)
      ensures session.log == old(session.log) + [Observed(manager.state)]
    {
      var m := new StateManager(session);
      var r := new PlanRepairer(config.reg, config.limits);
      this.config, this.session, manager, repairer := config, session, m, r;
    }

    function Machine(flags: Flags): Setup { Setup(config, flags, session.backend) }

    /** The control state that the local variables of a run stand for. */
    ghost function At(mode: Mode, plan: Plan, index: nat, replans: nat, repairs: nat, decision: Decision,
                      decisions: seq<Decision>, results: seq<Result>, adopted: seq<Adoption>, epoch: nat)
      : Control
      reads session, manager
    {
      Control(mode, plan, index, replans, repairs, decision, decisions, results, session.log, manager.last,
              adopted, epoch)
    }

    method Stop()
      modifies session
      ensures session.log == old(session.log) + [Stopped]
    {
      session.Record(Stopped);
    }

    /** `_goal_mismatches` */
    method MeetsGoals(plan: Plan, s: State) returns (met: bool)
      ensures met == GoalsMet(plan, s)
    {
      if plan.metadata.goals.None? {
        return true;
      }
      var goals := plan.metadata.goals.value;
      for i := 0 to |goals|
        invariant forall j :: 0 <= j < i ==> GoalMet(s, goals[j])
      {
        if !GoalMet(s, goals[i]) {
          assert goals[i] in goals;
          return false;
        }
      }
      return true;
    }

    /** Ground, acquire while evidence is missing, repair at most once. */
    method Preflight(plan0: Plan, flags: Flags)
      returns (launched: bool, plan: Plan, decision: Decision, decisions: seq<Decision>)
      requires Valid()
      modifies session, manager, repairer
      ensures Start(Machine(flags), plan0, old(session.log), old(manager.last)) ==
              At(if launched then Outer else Final(false), plan, 0, 0, 0, decision, decisions, [], [], 0)
    {
      hide Ground, Repair, GoalFold, ObservableFields, RepairPermitted;
      ghost var x := Machine(flags);
      var state := manager.Refresh();
      plan, decision, decisions := WithGoalState(config.reg, plan0, state), EXECUTE, [];
      ghost var c0 := At(Outer, plan, 0, 0, 0, EXECUTE, [], [], [], 0);
      if !flags.groundPlan {
        return true, plan, EXECUTE, [EXECUTE];
      }
      var caps := Machine(flags).Caps();
      var report := GroundPlan(config.reg, plan, state, caps, session.backend.clock(session.log, ForGround));
      var attempts := 0;
      var fields := ObservableFields(config.reg, plan, report, session.backend.capabilities);
      while !report.valid && !report.RequiresStop() && flags.activeObservation
            && attempts < config.maxObservations && fields != {}
        invariant plan == c0.plan && attempts <= config.maxObservations
        invariant report == Ground(config.reg, caps, session.backend.clock(session.log, ForGround), plan, state)
        invariant fields == ObservableFields(config.reg, plan, report, session.backend.capabilities)
        invariant PreflightLoop(x, c0, c0.log[|c0.log| - 1].state, 0) ==
                  PreflightLoop(x, At(Outer, plan, 0, 0, 0, EXECUTE, decisions, [], [], 0), state, attempts)
        decreases config.maxObservations - attempts
      {
        state := manager.AcquireFields(fields);
        attempts, decisions := attempts + 1, decisions + [OBSERVE];
        report := GroundPlan(config.reg, plan, state, caps, session.backend.clock(session.log, ForGround));
        fields := ObservableFields(config.reg, plan, report, session.backend.capabilities);
      }
      ghost var c := At(Outer, plan, 0, 0, 0, EXECUTE, decisions, [], [], 0);
      assert PreflightLoop(x, c, state, attempts) == PreflightEnd(x, c, state, report);
      if report.valid {
        if decisions == [] {
          return true, plan, EXECUTE, [EXECUTE];
        }
        return true, plan, OBSERVE, decisions;
      }
      if report.RequiresStop() || !flags.allowRepair || !RepairPermitted(config.reg, plan, report) {
        return false, plan, decision, decisions;
      }
      var repaired := repairer.RepairPlan(plan, state, false, session.backend.clock(session.log, ForRepair));
      if repaired.None? {
        return false, plan, decision, decisions;
      }
      plan := repaired.value;
      report := GroundPlan(config.reg, plan, state, caps, session.backend.clock(session.log, ForReground));
      if report.valid {
        return true, plan, REPAIR, decisions + [REPAIR];
      }
      return false, plan, decision, decisions;
    }

    /** The runtime guard refused the current step on `before`, the latest observation. */
    method HandleRefusal(flags: Flags, skill: Skill, before: State, plan: Plan, index: nat, repairs: nat,
                         decision: Decision, ghost c: Control)
      returns (outcome: GuardOutcome)
      requires Valid() && index <= |plan.steps| && c.mode.Outer?
      requires c.plan == plan && c.index == index && c.runtimeRepairs == repairs && c.decision == decision
      requires c.log == session.log && c.last == manager.last
      modifies session, manager, repairer
      ensures manager.last == old(manager.last)
      ensures var d := GuardFailed(Machine(flags), c, skill, before);
              match outcome
              case GoOn(plan', repairs', decision', decided) =>
                d == c.(plan := plan', runtimeRepairs := repairs', decision := decision',
                        decisions := c.decisions + [decided], log := session.log)
              case GiveUp => d == Halt(c) && session.log == old(session.log)
    {
      hide Ground, Repair, ObservableFields;
      var remaining := plan.(steps := plan.steps[index..]);
      var report := GroundPlan(config.reg, remaining, before, Machine(flags).Caps(),
                               session.backend.clock(session.log, ForSuffix));
      if flags.activeObservation && "observe" in skill.policy && repairs < config.maxObservations {
        var fields := ObservableFields(config.reg, remaining, report, session.backend.capabilities);
        if fields != {} {
          var state := manager.AcquireFields(fields);
          return GoOn(plan, repairs + 1, decision, OBSERVE);
        }
      }
      if flags.allowRepair && "repair" in skill.policy && !report.RequiresStop() && repairs < 2 {
        var repaired := repairer.RepairPlan(remaining, before, false, session.backend.clock(session.log, ForRepair));
        if repaired.Some? && repaired.value.steps != remaining.steps {
          var revision := if plan.revision >= repaired.value.revision then plan.revision
                          else repaired.value.revision;
          return GoOn(plan.(steps := plan.steps[..index] + repaired.value.steps, revision := revision),
                      repairs + 1, if decision == EXECUTE then REPAIR else decision, REPAIR);
        }
      }
      return GiveUp;
    }

    /** Ask the replanner; accept its plan, or one repair of it, only if that grounds. */
    method FindReplan(flags: Flags, failed: Plan, ghost c: Control, ghost m: Mode)
      returns (adopted: Option<Plan>)
      requires Valid() && config.replanner.Some? && m.Inner? && failed == FailedPlan(c, m)
      requires c.log == session.log && c.last == manager.last
      modifies session, manager, repairer
      ensures manager.last == old(manager.last)
      ensures TryReplan(Machine(flags), c, m) ==
              var e := c.(log := session.log);
              if adopted.Some? then Adopt(e, m, adopted.value) else Halt(e)
    {
      hide Ground, Repair, GoalFold;
      var s := manager.Refresh();
      var proposal := config.replanner.value(failed, s);
      if proposal.None? {
        return None;
      }
      var s1 := manager.Refresh();
      var plan := WithGoalState(config.reg, proposal.value, s1);
      var s2 := manager.Refresh();
      var caps := Machine(flags).Caps();
      var report := GroundPlan(config.reg, plan, s2, caps, session.backend.clock(session.log, ForGround));
      if report.valid {
        return Some(plan);
      }
      var s3 := manager.Refresh();
      var repaired := repairer.RepairPlan(plan, s3, report.RequiresStop(),
                                          session.backend.clock(session.log, ForRepair));
      if repaired.None? {
        return None;
      }
      var s4 := manager.Refresh();
      var again := GroundPlan(config.reg, repaired.value, s4, caps,
                              session.backend.clock(session.log, ForReground));
      return if again.valid then repaired else None;
    }

    /** One attempt: command, observe, verify, mark. */
    method Attempt(flags: Flags, step: Step, skill: Skill, before: State, attempt: nat, ghost c: Control)
      returns (result: Result)
      requires Valid() && c.mode == Inner(step, skill, before, attempt)
      requires c.log == session.log && c.last == manager.last
      modifies session, manager
      ensures Attempted(Machine(flags), c) ==
              c.(log := session.log, last := manager.last, results := c.results + [result])
      ensures result == Attempted(Machine(flags), c).results[|c.results|]
    {
      hide Advance, OutcomeVerified;
      var at := |session.log|;
      var receipt := session.Send(skill.name, step.arguments);
      var timed := if receipt.elapsed > skill.timeout then receipt.(accepted := false, timedOut := true)
                   else receipt;
      var after := manager.Refresh();
      var achieved := timed.accepted;
      if timed.accepted && flags.verifyOutcomes {
        var failures := VerifyOutcome(skill, step.arguments, before, after);
        achieved := failures == [];
      }
      AttemptIs(Machine(flags), c, receipt, after, achieved);
      var marked := manager.MarkResult(if achieved then "success" else "failure");
      result := Result(skill.name, step.arguments, timed.accepted, achieved, before, marked, timed.timedOut,
                       attempt, at);
    }

    /** The attempt loop of one step, for at most `turns` attempts. */
    method RunAttempts(flags: Flags, plan: Plan, step: Step, skill: Skill, first: State, replans: nat,
                       results0: seq<Result>, decisions0: seq<Decision>, turns: nat, ghost c: Control)
      returns (outcome: StepOutcome, results: seq<Result>, decisions: seq<Decision>, left: nat, ghost m: Mode)
      requires Valid() && c.mode == Inner(step, skill, first, 1)
      requires c.log == session.log && c.last == manager.last
      requires c.plan == plan && c.replans == replans && c.results == results0 && c.decisions == decisions0
      modifies session, manager, repairer
      ensures left <= turns && (outcome.Pause? ==> left == 0) && (!outcome.Pause? ==> left < turns)
      ensures m.Inner? && m == Inner(step, skill, m.before, m.attempt)
      ensures var d := Iterate(Machine(flags), c, turns - left);
              var e := c.(results := results, decisions := decisions, log := session.log, last := manager.last);
              match outcome
              case Done => d == e.(mode := Outer, index := c.index + 1)
              case Reground => d == e.(mode := Outer)
              case Switch(p) => d == Adopt(e, m, p)
              case Fail => d == e.(mode := Final(false))
              case Pause => d == e.(mode := m)
    {
      hide Advance, GuardFailed, Attempted, TryReplan, GuardAllows, ValidArgs;
      ghost var x := Machine(flags);
      var before, attempt := first, 1;
      results, decisions, left := results0, decisions0, turns;
      m := c.mode;
      while left > 0
        invariant left <= turns && m == Inner(step, skill, before, attempt)
        invariant Iterate(x, c, turns - left) ==
                  c.(mode := m, results := results, decisions := decisions,
                     log := session.log, last := manager.last)
        decreases left
      {
        ghost var d := Iterate(x, c, turns - left);
        var result := Attempt(flags, step, skill, before, attempt, d);
        InnerEnds(x, d, result);
        left, results := left - 1, results + [result];
        assert Iterate(x, c, turns - left) == Advance(x, d);
        if result.achieved {
          return Done, results, decisions, left, m;
        }
        if !flags.allowRecovery {
          Stop();
          return Fail, results, decisions + [STOP], left, m;
        }
        var mayReplan := config.replanner.Some? && replans < config.maxReplans;
        var action := Decide(config.maxRetries, attempt, mayReplan, skill.policy);
        match action {
          case Retry =>
            decisions := decisions + [LOCAL_RETRY];
            var refreshed := manager.Refresh();
            if flags.runtimeGuard &&
               !GuardAllows(skill, step, refreshed, session.backend.clock(session.log, ForGuard)) {
              return Reground, results, decisions + [REGROUND], left, m;
            }
            before, attempt := refreshed, attempt + 1;
            m := Inner(step, skill, before, attempt);
          case Replace =>
            decisions := decisions + [REPLAN];
            ghost var e := Decided(Attempted(x, d), REPLAN);
            var failed := plan.(metadata := plan.metadata.(blocked := plan.metadata.blocked + {skill.name}));
            var adopted := FindReplan(flags, failed, e, m);
            if adopted.Some? {
              return Switch(adopted.value), results, decisions, left, m;
            }
            Stop();
            return Fail, results, decisions + [STOP], left, m;
          case SafeStop =>
            Stop();
            return Fail, results, decisions + [SAFE_STOP] + [STOP], left, m;
        }
      }
      return Pause, results, decisions, 0, m;
    }

    /** Validate the current step, refresh, and consult the guard. */
    method EnterStep(flags: Flags, plan: Plan, index: nat, repairs: nat, decision: Decision, ghost c: Control)
      returns (entry: Entry)
      requires Valid() && index < |plan.steps| && c.mode.Outer?
      requires c.plan == plan && c.index == index && c.runtimeRepairs == repairs && c.decision == decision
      requires c.log == session.log && c.last == manager.last
      modifies session, manager, repairer
      ensures manager.last == old(manager.last)
      ensures var d := Advance(Machine(flags), c);
              match entry
              case Attemptable(skill, before) =>
                d == c.(mode := Inner(plan.steps[index], skill, before, 1), log := session.log)
              case Changed(to) =>
                && to.GoOn?
                && d == c.(plan := to.plan, runtimeRepairs := to.repairs, decision := to.decision,
                           decisions := c.decisions + [to.decided], log := session.log)
              case Refused =>
                d == c.(mode := Final(false), decisions := c.decisions + [STOP], log := session.log)
    {
      hide Advance, GuardFailed, GuardAllows, ValidArgs;
      ghost var x := Machine(flags);
      var step := plan.steps[index];
      var error := CheckCall(step);
      if error {
        OuterRejects(x, c);
        Stop();
        return Refused;
      }
      var skill := Lookup(config.reg, step.skill).value;
      var before := manager.Refresh();
      OuterEnters(x, c, skill, before);
      if flags.runtimeGuard && !GuardAllows(skill, step, before, session.backend.clock(session.log, ForGuard)) {
        var outcome := HandleRefusal(flags, skill, before, plan, index, repairs, decision, Saw(c, before));
        if outcome.GiveUp? {
          Stop();
          return Refused;
        }
        return Changed(outcome);
      }
      return Attemptable(skill, before);
    }

    /** `execute`, for at most `turns` loop iterations: the run of the state machine. A report
        is given exactly when the run has ended; otherwise all turns are used up. */
    method Execute(plan0: Plan, flags: Flags, turns: nat)
      returns (report: Option<ExecutionReport>, ghost n: nat)
      requires Valid()
      modifies session, manager, repairer
      ensures n <= turns
      ensures var c := After(Machine(flags), plan0, old(session.log), old(manager.last), n);
              && session.log == c.log && manager.last == c.last
              && (report.Some? <==> c.mode.Final?)
              && (report.Some? ==> report.value == ReportOf(c))
              && (report.None? ==> n == turns)
    {
      hide Start, Advance;
      ghost var x := Machine(flags);
      ghost var c0 := Start(x, plan0, session.log, manager.last);
      n := 0;
      var launched, plan, decision, decisions := Preflight(plan0, flags);
      if !launched {
        return Some(ExecutionReport(false, STOP, plan, [], decisions)), 0;
      }
      var results: seq<Result>, index, replans, repairs, left := [], 0, 0, 0, turns;
      ghost var adopted: seq<Adoption>, epoch: nat := [], 0;
      while index < |plan.steps|
        invariant n + left == turns
        invariant Iterate(x, c0, n) ==
                  At(Outer, plan, index, replans, repairs, decision, decisions, results, adopted, epoch)
        decreases left
      {
        if left == 0 {
          return None, n;
        }
        var step := plan.steps[index];
        var entry := EnterStep(flags, plan, index, repairs, decision, Iterate(x, c0, n));
        n, left := n + 1, left - 1;
        if entry.Refused? {
          return Some(ExecutionReport(false, STOP, plan, results, decisions + [STOP])), n;
        } else if entry.Changed? {
          plan, repairs, decision := entry.to.plan, entry.to.repairs, entry.to.decision;
          decisions := decisions + [entry.to.decided];
        } else {
          var skill, before := entry.skill, entry.before;
          ghost var entered := Iterate(x, c0, n);
          var outcome, more, taken, rest;
          ghost var m;
          outcome, more, taken, rest, m :=
            RunAttempts(flags, plan, step, skill, before, replans, results, decisions, left, entered);
          IterateAdd(x, c0, n, left - rest);
          n, left, results, decisions := n + (left - rest), rest, more, taken;
          match outcome {
            case Done => index := index + 1;
            case Reground =>
            case Switch(p) =>
              plan, index, replans, decision := p, 0, replans + 1, REPLAN;
              adopted, epoch := adopted + [Adoption(skill.name, |session.log|)], |results|;
            case Fail =>
              return Some(ExecutionReport(false, STOP, plan, results, decisions)), n;
            case Pause =>
              return None, n;
          }
        }
      }
      if left == 0 {
        return None, n;
      }
      ghost var c := Iterate(x, c0, n);
      n := n + 1;
      var done := Conclude(flags, plan, decision, results, decisions, c);
      report := Some(done);
    }

    /** After the last step: the goals decide. */
    method Conclude(flags: Flags, plan: Plan, decision: Decision, results: seq<Result>, decisions: seq<Decision>,
                    ghost c: Control)
      returns (report: ExecutionReport)
      requires Valid() && c.mode.Outer? && c.index >= |plan.steps|
      requires c.plan == plan && c.decision == decision && c.results == results && c.decisions == decisions
      requires c.log == session.log && c.last == manager.last
      modifies session, manager
      ensures var d := Advance(Machine(flags), c);
              && d.mode.Final? && report == ReportOf(d)
              && session.log == d.log && manager.last == d.last
    {
      hide Advance, GoalsMet, Finish;
      ghost var x := Machine(flags);
      OuterFinishes(x, c);
      FinishIs(x, c);
      if flags.verifyOutcomes {
        var state := manager.Refresh();
        var met := MeetsGoals(plan, state);
        if !met {
          Stop();
          return ExecutionReport(false, STOP, plan, results, decisions + [STOP]);
        }
      }
      return ExecutionReport(true, decision, plan, results, decisions);
    }

    /** Whether `registry.get` or `validate_arguments` raises. */
    method CheckCall(step: Step) returns (error: bool)
      ensures error == !Callable(config.reg, step)
    {
      var skill := Lookup(config.reg, step.skill);
      if skill.None? {
        return true;
      }
      var e := ValidateArguments(skill.value, step.arguments);
      return e.Some?;
    }
  }
}
