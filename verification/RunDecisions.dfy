/** Exactly when a run does what: each iteration's outcome from the flags, the policy, the
    budgets and what the backend shows. */
module RunDecisions {
  import opened Values
  import opened RobotState
  import opened Templates
  import opened Skills
  import opened Registry
  import opened Capability
  import opened Grounder
  import opened GrounderIssues
  import opened Repairer
  import opened Executor
  import opened Transitions

  // ---- When the guard refuses the current step -------------------------------------------------------

  function Current(x: Setup, c: Control): Option<Skill> {
    if c.index < |c.plan.steps| then Lookup(x.Reg(), c.plan.steps[c.index].skill) else None
  }

  /** The log with the look the guard is given. */
  function Watching(x: Setup, c: Control): Log { c.log + [Observed(Look(x, c))] }

  /** Fresh evidence of the field could help the rest of the plan. */
  ghost predicate Asked(x: Setup, c: Control, field: string) {
    c.index <= |c.plan.steps| && field != "" && field in x.backend.capabilities.refreshable &&
    var steps := c.plan.steps[c.index..];
    exists k :: 0 <= k < |steps| &&
      Wanting(x.Reg(), x.Caps(), x.backend.clock(Watching(x, c), ForSuffix), steps, Look(x, c), k, field)
  }

  /** The flags, the policy of the current step and the shared budget allow to acquire evidence,
      and there is a field to ask for. */
  ghost predicate MayAcquire(x: Setup, c: Control) {
    && x.flags.activeObservation && Current(x, c).Some? && "observe" in Current(x, c).value.policy
    && c.runtimeRepairs < x.config.maxObservations
    && exists field :: Asked(x, c, field)
  }

  /** The rest of the plan, repaired. */
  function Mended(x: Setup, c: Control): Option<Plan>
    requires c.index <= |c.plan.steps|
  {
    Repair(x.Reg(), x.config.limits, x.backend.clock(Watching(x, c), ForRepair), Remaining(c), Look(x, c), false)
  }

  /** They allow to repair the rest of the plan, its report requires no stop, and the repair
      changes it. */
  predicate MayMend(x: Setup, c: Control) {
    && x.flags.allowRepair && Current(x, c).Some? && "repair" in Current(x, c).value.policy
    && c.runtimeRepairs < 2
    && !Ground(x.Reg(), x.Caps(), x.backend.clock(Watching(x, c), ForSuffix), Remaining(c), Look(x, c)).RequiresStop()
    && Mended(x, c).Some? && Mended(x, c).value.steps != c.plan.steps[c.index..]
  }

  /** Fresh evidence of exactly the fields asked for is the last event, counted and on record. */
  ghost predicate Acquiring(x: Setup, c: Control, d: Control) {
    var n := |c.log|;
    && |d.log| == n + 2 && d.log[..n + 1] == Watching(x, c) && d.log[n + 1].Acquired?
    && (forall field :: field in d.log[n + 1].fields <==> Asked(x, c, field))
    && d.log[n + 1].state == Overlay(x.backend.acquire(Watching(x, c), d.log[n + 1].fields), c.last)
    && d == c.(log := d.log, runtimeRepairs := c.runtimeRepairs + 1, decisions := c.decisions + [OBSERVE])
  }

  /** The rest of the plan is the repaired one, counted and on record. */
  predicate Mending(x: Setup, c: Control, d: Control) {
    && c.index <= |c.plan.steps| && Mended(x, c).Some?
    && d.plan.steps == c.plan.steps[..c.index] + Mended(x, c).value.steps
    && d.plan.metadata == c.plan.metadata && d.plan.planId == c.plan.planId && d.plan.goal == c.plan.goal
    && d.plan.revision == (if c.plan.revision > Mended(x, c).value.revision then c.plan.revision
                           else Mended(x, c).value.revision)
    && d == c.(log := Watching(x, c), plan := d.plan, runtimeRepairs := c.runtimeRepairs + 1,
               decision := d.decision, decisions := c.decisions + [REPAIR])
    && d.decision == (if c.decision == EXECUTE then REPAIR else c.decision)
  }

  predicate Stopping(c: Control, log: Log, decisions: seq<Decision>, d: Control) {
    d == c.(log := log + [Stopped], decisions := c.decisions + decisions + [STOP], mode := Final(false))
  }

  /** A refused guard. Fresh evidence is acquired if that is allowed and there is something to ask
      for; failing that the rest of the plan is repaired if that is allowed and changes it;
      otherwise the run stops. Nothing else happens, and each is the whole change. */
  lemma RefusalExact(x: Setup, c: Control)
    requires c.mode.Outer? && DeniedNow(x, c) && Callable(x.Reg(), c.plan.steps[c.index])
    ensures var d := Advance(x, c);
            && (MayAcquire(x, c) ==> Acquiring(x, c, d))
            && (!MayAcquire(x, c) && MayMend(x, c) ==> Mending(x, c, d))
            && (!MayAcquire(x, c) && !MayMend(x, c) ==> Stopping(c, Watching(x, c), [], d))
  {
    hide Ground, Repair, ObservableFields, GuardAllows, Wanting, ValidArgs;
    var before := Look(x, c);
    var log := Watching(x, c);
    var now := x.backend.clock(log, ForSuffix);
    var sk := Current(x, c).value;
    var remaining := Remaining(c);
    var report := Ground(x.Reg(), x.Caps(), now, remaining, before);
    var fields := ObservableFields(x.Reg(), remaining, report, x.backend.capabilities);
    forall field ensures field in fields <==> Asked(x, c, field) {
      AskedExactly(x.Reg(), x.Caps(), now, remaining, before, x.backend.capabilities, field);
    }
    assert fields != {} <==> exists field :: Asked(x, c, field) by {
      if field :| Asked(x, c, field) { assert field in fields; }
    }
    var d := Advance(x, c);
    assert d == GuardFailed(x, Saw(c, before), sk, before);
    if MayAcquire(x, c) {
      assert d.log == log + [Acquired(fields, Overlay(x.backend.acquire(log, fields), c.last))];
    }
  }

  // ---- From the head of the step loop ----------------------------------------------------------------------

  /** The other outcomes: the plan is done, the step is no valid call, the guard lets it pass. */
  lemma OuterExact(x: Setup, c: Control)
    requires c.mode.Outer?
    ensures var d := Advance(x, c);
            if c.index >= |c.plan.steps| then
              if !x.flags.verifyOutcomes then d == c.(mode := Final(true))
              else if GoalsMet(c.plan, Look(x, c)) then d == c.(log := Watching(x, c), mode := Final(true))
              else Stopping(c, Watching(x, c), [], d)
            else if !Callable(x.Reg(), c.plan.steps[c.index]) then Stopping(c, c.log, [], d)
            else if DeniedNow(x, c) then d.mode.Outer? || d.mode == Final(false)
            else
              && d == c.(log := Watching(x, c), mode := d.mode) && Current(x, c).Some?
              && d.mode == Inner(c.plan.steps[c.index], Current(x, c).value, Look(x, c), 1)
  {
    hide Ground, Repair, ObservableFields, GuardAllows, ValidArgs, GoalsMet;
  }

  // ---- One attempt ------------------------------------------------------------------------------------------

  /** The answer to the command about to be sent. */
  function Answer(x: Setup, c: Control): Receipt
    requires c.mode.Inner?
  {
    x.backend.command(c.log, c.mode.skill.name, c.mode.step.arguments)
  }

  /** The log after the command. */
  function Sending(x: Setup, c: Control): Log
    requires c.mode.Inner?
  {
    c.log + [Commanded(c.mode.skill.name, c.mode.step.arguments, Answer(x, c))]
  }

  /** What is seen after it. */
  function Outcome(x: Setup, c: Control): State
    requires c.mode.Inner?
  {
    Overlay(x.backend.observe(Sending(x, c)), c.last)
  }

  /** The command counts: accepted within the contract's timeout and, if outcomes are verified,
      followed by the predicted effects. */
  predicate Succeeds(x: Setup, c: Control)
    requires c.mode.Inner?
  {
    && Answer(x, c).accepted && Answer(x, c).elapsed <= c.mode.skill.timeout
    && (x.flags.verifyOutcomes ==>
          OutcomeVerified(c.mode.skill, c.mode.step.arguments, c.mode.before, Outcome(x, c)))
  }

  /** After the attempt: one command, one look, one result with its verdict and its number, and
      the verdict kept as the executor's last result. */
  predicate AttemptedOnce(x: Setup, c: Control, e: Control)
    requires c.mode.Inner?
  {
    var ok := Succeeds(x, c);
    && e == c.(log := Sending(x, c) + [Observed(Outcome(x, c))], results := e.results,
               last := Some(if ok then "success" else "failure"))
    && |e.results| == |c.results| + 1 && e.results[..|c.results|] == c.results
    && var r := e.results[|c.results|];
       && r.skill == c.mode.skill.name && r.args == c.mode.step.arguments && r.at == |c.log|
       && r.attempt == c.mode.attempt && r.achieved == ok
       && r.accepted == (Answer(x, c).accepted && Answer(x, c).elapsed <= c.mode.skill.timeout)
       && r.timedOut == (Answer(x, c).timedOut || Answer(x, c).elapsed > c.mode.skill.timeout)
       && r.before == c.mode.before
       && r.after == Copy(Outcome(x, c), map[LAST_RESULT := Some(Str(if ok then "success" else "failure"))])
  }

  lemma AttemptExact(x: Setup, c: Control)
    requires c.mode.Inner?
    ensures AttemptedOnce(x, c, Attempted(x, c)) && (Achieved(x, c) <==> Succeeds(x, c))
  {
    hide OutcomeVerified;
  }

  // ---- From the head of the attempt loop ------------------------------------------------------------------------

  predicate MayTryAgain(x: Setup, c: Control)
    requires c.mode.Inner?
  {
    && x.flags.allowRecovery && c.mode.attempt <= x.config.maxRetries
    && ("local_retry" in c.mode.skill.policy || "retry" in c.mode.skill.policy)
  }

  predicate MayReplace(x: Setup, c: Control)
    requires c.mode.Inner?
  {
    && x.flags.allowRecovery && !MayTryAgain(x, c) && "replan" in c.mode.skill.policy
    && x.config.replanner.Some? && c.replans < x.config.maxReplans
  }

  /** What the replanner is asked after the attempt `e`: the plan with the failed skill blocked. */
  function Proposed(x: Setup, e: Control, skill: string): Option<Plan>
    requires x.config.replanner.Some?
  {
    x.config.replanner.value(
      e.plan.(metadata := e.plan.metadata.(blocked := e.plan.metadata.blocked + {skill})), Look(x, e))
  }

  /** What is seen at the next look but `n` others, all in a row. */
  function NthLook(x: Setup, log: Log, last: Option<string>, n: nat): State
    decreases n, 1
  {
    Overlay(x.backend.observe(LookedAt(x, log, last, n)), last)
  }

  function LookedAt(x: Setup, log: Log, last: Option<string>, n: nat): Log
    decreases n, 0
  {
    if n == 0 then log else LookedAt(x, log, last, n - 1) + [Observed(NthLook(x, log, last, n - 1))]
  }

  /** The proposal with goals, as the second look projects them. */
  function Candidate(x: Setup, e: Control, p: Plan): Plan { WithGoalState(x.Reg(), p, NthLook(x, e.log, e.last, 1)) }

  /** Its report at the third look. */
  function Vetting(x: Setup, e: Control, p: Plan): Report {
    Ground(x.Reg(), x.Caps(), x.backend.clock(LookedAt(x, e.log, e.last, 3), ForGround), Candidate(x, e, p),
           NthLook(x, e.log, e.last, 2))
  }

  /** Its repair at the fourth, if the report allows one. */
  function Salvaged(x: Setup, e: Control, p: Plan): Option<Plan> {
    Repair(x.Reg(), x.config.limits, x.backend.clock(LookedAt(x, e.log, e.last, 4), ForRepair), Candidate(x, e, p),
           NthLook(x, e.log, e.last, 3), Vetting(x, e, p).RequiresStop())
  }

  /** ... and whether the repair grounds at the fifth. */
  predicate SalvageGrounds(x: Setup, e: Control, p: Plan) {
    Salvaged(x, e, p).Some? &&
    Ground(x.Reg(), x.Caps(), x.backend.clock(LookedAt(x, e.log, e.last, 5), ForReground), Salvaged(x, e, p).value,
           NthLook(x, e.log, e.last, 4)).valid
  }

  predicate Adopting(x: Setup, e: Control, skill: string, p: Plan, looks: nat, d: Control) {
    && d == e.(mode := Outer, plan := p, index := 0, replans := e.replans + 1, decision := REPLAN,
               log := LookedAt(x, e.log, e.last, looks), decisions := e.decisions + [REPLAN],
               adopted := d.adopted, epoch := |e.results|)
    && d.adopted == e.adopted + [Adoption(skill, |d.log|)]
  }

  /** The end of a replanning attempt `e`: a proposal that grounds is adopted as it is, one whose
      repair grounds is adopted repaired, and otherwise the run stops. */
  ghost predicate ReplacedOrStopped(x: Setup, e: Control, skill: string, d: Control)
    requires x.config.replanner.Some?
  {
    match Proposed(x, e, skill)
    case None => Stopping(e, LookedAt(x, e.log, e.last, 1), [REPLAN], d)
    case Some(p) =>
      if Vetting(x, e, p).valid then Adopting(x, e, skill, Candidate(x, e, p), 3, d)
      else if SalvageGrounds(x, e, p) then Adopting(x, e, skill, Salvaged(x, e, p).value, 5, d)
      else Stopping(e, LookedAt(x, e.log, e.last, if Salvaged(x, e, p).Some? then 5 else 4), [REPLAN], d)
  }

  lemma LookIsNth(x: Setup, e: Control, c: Control, n: nat)
    requires c.log == LookedAt(x, e.log, e.last, n) && c.last == e.last
    ensures Look(x, c) == NthLook(x, e.log, e.last, n)
    ensures Saw(c, Look(x, c)).log == LookedAt(x, e.log, e.last, n + 1)
  {
  }

  lemma ReplanExact(x: Setup, e: Control, m: Mode)
    requires m.Inner? && x.config.replanner.Some?
    ensures ReplacedOrStopped(x, e, m.skill.name, TryReplan(x, Decided(e, REPLAN), m))
  {
    hide Ground, Repair, WithGoalState, Look, NthLook, LookedAt, Report.RequiresStop;
    assert LookedAt(x, e.log, e.last, 0) == e.log by { NoLooks(x, e); }
    var e0 := Decided(e, REPLAN);
    LookIsNth(x, e, e, 0);
    LookIsNth(x, e, e0, 0);
    var c0 := Saw(e0, Look(x, e0));
    LookIsNth(x, e, c0, 1);
    var c1 := Saw(c0, Look(x, c0));
    LookIsNth(x, e, c1, 2);
    var c2 := Saw(c1, Look(x, c1));
    LookIsNth(x, e, c2, 3);
    var c3 := Saw(c2, Look(x, c2));
    LookIsNth(x, e, c3, 4);
    var r := Proposed(x, e, m.skill.name);
    assert FailedPlan(e0, m) ==
           e.plan.(metadata := e.plan.metadata.(blocked := e.plan.metadata.blocked + {m.skill.name}));
    if r.Some? {
      assert TryReplan(x, e0, m) == CheckReplan(x, c0, m, r.value);
      assert e.decisions + [REPLAN] == e0.decisions;
    }
  }

  lemma NoLooks(x: Setup, e: Control)
    ensures LookedAt(x, e.log, e.last, 0) == e.log
  {
  }

  /** After an attempt. A success passes to the next step. A failure is tried again where policy,
      flag and retry budget allow it, if the guard is off or still allows the call, and is left
      to the step loop to ground again if not; it is replaced where they allow that instead;
      otherwise the run stops. */
  lemma InnerExact(x: Setup, c: Control)
    requires c.mode.Inner?
    ensures var e := Attempted(x, c);
            var d := Advance(x, c);
            var now := x.backend.clock(Watching(x, e), ForGuard);
            if Succeeds(x, c) then d == e.(mode := Outer, index := c.index + 1)
            else if MayTryAgain(x, c) then
              if x.flags.runtimeGuard && !GuardAllows(c.mode.skill, c.mode.step, Look(x, e), now) then
                d == e.(log := Watching(x, e), mode := Outer, decisions := e.decisions + [LOCAL_RETRY] + [REGROUND])
              else
                d == e.(log := Watching(x, e), decisions := e.decisions + [LOCAL_RETRY],
                        mode := c.mode.(before := Look(x, e), attempt := c.mode.attempt + 1))
            else if MayReplace(x, c) then ReplacedOrStopped(x, e, c.mode.skill.name, d)
            else Stopping(e, e.log, if x.flags.allowRecovery then [SAFE_STOP] else [], d)
  {
    hide Attempted, GuardAllows, TryReplan, Succeeds, ReplacedOrStopped;
    AttemptExact(x, c);
    var e := Attempted(x, c);
    AttemptKeeps(x, c);
    DecisionsAreInvisible(x, e, LOCAL_RETRY);
    if !Succeeds(x, c) && MayReplace(x, c) { ReplanExact(x, e, c.mode); }
    assert e.decisions + [] == e.decisions;
  }

  lemma AttemptKeeps(x: Setup, c: Control)
    requires c.mode.Inner?
    ensures var e := Attempted(x, c);
            SameWork(c.(results := e.results, last := e.last), e) && e.decisions == c.decisions && e.mode == c.mode
  {
  }

  lemma DecisionsAreInvisible(x: Setup, c: Control, d: Decision)
    ensures Look(x, Decided(c, d)) == Look(x, c)
  {
  }
}
